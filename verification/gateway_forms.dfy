/**
 * The gateway form: the page a visitor without a valid token is sent to. It
 * checks the submitted token against the token table and, once accepted,
 * stores the token in the session and records who used it.
 */
module GatewayForms {
  import opened Common
  import opened PerimeterModels
  import opened PerimeterMiddleware

  /** The `max_length` of the `token` and `name` fields. */
  const MaxFieldLength: nat := 100

  /** The raw submission; a field the visitor left out is `None`. */
  datatype FormData = FormData(token: Option<string>, email: Option<string>, name: Option<string>)

  /** Why a field was rejected. */
  datatype ValidationError =
    | Required
    | MaxLength(limit: nat, length: nat)
    | Expired
    | Inactive
    | NotFound

  /** The error code the form reports for each rejection. */
  function Code(e: ValidationError): string {
    match e
    case Required => "required"
    case MaxLength(_, _) => "max_length"
    case Expired => "expired"
    case Inactive => "invalid"
    case NotFound => "invalid"
  }

  /** The messages of the rejections `clean_token` raises. */
  function Message(e: ValidationError): Option<string> {
    match e
    case Expired => Some("Token has expired")
    case Inactive => Some("Token is inactive")
    case NotFound => Some("Token not found")
    case _ => None
  }

  /**
   * A required character field: a missing or empty value is rejected, and so
   * is a value longer than the field's maximum length, when it has one.
   */
  function CleanCharField(value: Option<string>, maxLength: Option<nat>): (r: Result<string, ValidationError>)
    ensures r.Success? <==> value.Some? && value.value != "" && (maxLength.Some? ==> |value.value| <= maxLength.value)
    ensures r.Success? ==> r.value == value.value
    ensures r.Failure? && (value.None? || value.value == "") ==> r.error == Required
    ensures r.Failure? && value.Some? && value.value != "" ==>
      r.error == MaxLength(maxLength.value, |value.value|) && |value.value| > maxLength.value
  {
    if value.None? || value.value == "" then Failure(Required)
    else if maxLength.Some? && |value.value| > maxLength.value then Failure(MaxLength(maxLength.value, |value.value|))
    else Success(value.value)
  }

  /**
   * `clean_token`'s verdict on a value, looked up in the token table itself
   * (not through the cache): a valid token's value is accepted; an expired
   * token is reported as expired before its activity is looked at; an
   * unexpired inactive token and an unknown value are both invalid.
   */
  function ClassifyToken(tokens: map<string, AccessToken>, value: Option<string>, today: int)
    : (r: Result<string, ValidationError>)
  {
    if value.None? || value.value !in tokens then Failure(NotFound)
    else
      var t := tokens[value.value];
      if IsValid(t, today) then Success(value.value)
      else if HasExpired(t, today) then Failure(Expired)
      else Failure(Inactive)
  }

  /**
   * The verdicts, case by case: accepted exactly when the token exists and
   * is valid; `expired` exactly when it exists and has expired, whatever its
   * activity; `invalid` when it is unexpired but inactive, or unknown.
   */
  lemma ClassifyTokenCases(tokens: map<string, AccessToken>, value: string, today: int)
    ensures ClassifyToken(tokens, Some(value), today) == Success(value) <==>
      value in tokens && IsValid(tokens[value], today)
    ensures ClassifyToken(tokens, Some(value), today) == Failure(Expired) <==>
      value in tokens && HasExpired(tokens[value], today)
    ensures ClassifyToken(tokens, Some(value), today) == Failure(Inactive) <==>
      value in tokens && !HasExpired(tokens[value], today) && !tokens[value].isActive
    ensures ClassifyToken(tokens, Some(value), today) == Failure(NotFound) <==> value !in tokens
    ensures ClassifyToken(tokens, Some(value), today).Failure? ==>
      Code(ClassifyToken(tokens, Some(value), today).error) in {"expired", "invalid"}
  {
  }

  /** What the form keeps of a submission: the cleaned fields and the rejected ones. */
  datatype Cleaned = Cleaned(data: map<string, string>, errors: map<string, ValidationError>)

  /** Files a field's result under its name, among the cleaned values or the errors. */
  function File(c: Cleaned, field: string, r: Result<string, ValidationError>): Cleaned {
    match r
    case Success(v) => Cleaned(c.data[field := v], c.errors - {field})
    case Failure(e) => Cleaned(c.data - {field}, c.errors[field := e])
  }

  /** The `token` field: the character field first, then `clean_token` on what it gave. */
  function CleanTokenField(data: FormData, tokens: map<string, AccessToken>, today: int)
    : (r: Result<string, ValidationError>)
  {
    match CleanCharField(data.token, Some(MaxFieldLength))
    case Failure(e) => Failure(e)
    case Success(v) => ClassifyToken(tokens, Some(v), today)
  }

  /** `full_clean` of the gateway form, field by field in declaration order. */
  function CleanFields(data: FormData, tokens: map<string, AccessToken>, today: int): Cleaned {
    var c0 := Cleaned(map[], map[]);
    var c1 := File(c0, "token", CleanTokenField(data, tokens, today));
    var c2 := File(c1, "email", CleanCharField(data.email, None));
    File(c2, "name", CleanCharField(data.name, Some(MaxFieldLength)))
  }

  /**
   * A submission is accepted exactly when all three fields are given, the
   * token and the name are at most 100 characters, and the token exists and
   * is valid today; the accepted values are the submitted ones.
   */
  lemma CleanFieldsAccepts(data: FormData, tokens: map<string, AccessToken>, today: int)
    ensures CleanFields(data, tokens, today).errors == map[] <==>
      && data.token.Some? && data.token.value != "" && |data.token.value| <= MaxFieldLength
      && data.email.Some? && data.email.value != ""
      && data.name.Some? && data.name.value != "" && |data.name.value| <= MaxFieldLength
      && data.token.value in tokens && IsValid(tokens[data.token.value], today)
    ensures CleanFields(data, tokens, today).errors == map[] ==>
      CleanFields(data, tokens, today).data ==
        map["token" := data.token.value, "email" := data.email.value, "name" := data.name.value]
  {
    var c := CleanFields(data, tokens, today);
    var tokenOk := CleanTokenField(data, tokens, today).Success?;
    var emailOk := CleanCharField(data.email, None).Success?;
    var nameOk := CleanCharField(data.name, Some(MaxFieldLength)).Success?;
    assert !tokenOk ==> "token" in c.errors;
    assert !emailOk ==> "email" in c.errors;
    assert !nameOk ==> "name" in c.errors;
    if tokenOk && emailOk && nameOk {
      assert c.errors == map[];
      ClassifyTokenCases(tokens, data.token.value, today);
    } else {
      assert c.errors != map[];
    }
    if data.token.Some? && data.token.value != "" && |data.token.value| <= MaxFieldLength {
      ClassifyTokenCases(tokens, data.token.value, today);
    }
  }

  /** The name of a field as the cleaned values hold it, or `None`. */
  function Get(m: map<string, string>, k: string): Option<string> {
    if k in m then Some(m[k]) else None
  }

  datatype SaveError = AssertionError | Gate(error: GateError)

  class GatewayForm {
    const data: FormData
    /** `self.token`: the token `clean_token` found, if it found one. */
    var token: Option<AccessToken>
    var cleanedData: map<string, string>
    var errors: map<string, ValidationError>

    constructor (data: FormData)
      ensures this.data == data && token.None? && cleanedData == map[] && errors == map[]
    {
      this.data := data;
      token, cleanedData, errors := None, map[], map[];
    }

    /**
     * `clean_token`: the verdict on the cleaned token value; a token found in
     * the table is kept in `token` whatever the verdict.
     */
    method CleanToken(store: AccessTokenStore, today: int) returns (r: Result<string, ValidationError>)
      modifies this`token
      ensures r == ClassifyToken(store.tokens, Get(cleanedData, "token"), today)
      ensures "token" in cleanedData && cleanedData["token"] in store.tokens ==>
        token == Some(store.tokens[cleanedData["token"]])
      ensures !("token" in cleanedData && cleanedData["token"] in store.tokens) ==> token == old(token)
    {
      var value := Get(cleanedData, "token");
      if value.None? || value.value !in store.tokens {
        return Failure(NotFound);
      }
      var t := store.tokens[value.value];
      token := Some(t);
      if PerimeterModels.IsValid(t, today) {
        r := Success(value.value);
      } else if HasExpired(t, today) {
        r := Failure(Expired);
      } else {
        r := Failure(Inactive);
      }
    }

    /** `is_valid`: clean every field, then accept when no field was rejected. */
    method IsValid(store: AccessTokenStore, today: int) returns (valid: bool)
      modifies this`token, this`cleanedData, this`errors
      ensures Cleaned(cleanedData, errors) == CleanFields(data, store.tokens, today)
      ensures valid <==> errors == map[]
      ensures CleanCharField(data.token, Some(MaxFieldLength)).Success? && data.token.value in store.tokens ==>
        token == Some(store.tokens[data.token.value])
      ensures !(CleanCharField(data.token, Some(MaxFieldLength)).Success? && data.token.value in store.tokens) ==>
        token == old(token)
    {
      cleanedData, errors := map[], map[];
      var field := CleanCharField(data.token, Some(MaxFieldLength));
      if field.Success? {
        cleanedData := cleanedData["token" := field.value];
        field := CleanToken(store, today);
      }
      var c := File(Cleaned(map[], map[]), "token", field);
      var c2 := File(c, "email", CleanCharField(data.email, None));
      var c3 := File(c2, "name", CleanCharField(data.name, Some(MaxFieldLength)));
      cleanedData, errors := c3.data, c3.errors;
      valid := errors == map[];
    }

    /**
     * `save`: with a token found, the token's value goes into the session and
     * exactly one use is recorded, carrying the submitted email and name, the
     * client address and the user agent (`'unknown'` when absent).
     */
    method Save(request: HttpRequest, cfg: Config, store: AccessTokenStore, now: int)
      returns (r: Result<AccessTokenUse, SaveError>)
      requires "email" in cleanedData && "name" in cleanedData
      requires store.Valid() && (token.Some? ==> token.value.token in store.tokens)
      modifies request, store`uses
      ensures store.Valid()
      ensures token.None? ==>
        r == Failure(AssertionError) && request.session == old(request.session) && store.uses == old(store.uses)
      ensures token.Some? && old(request.session).None? ==>
        r == Failure(Gate(ImproperlyConfigured)) && request.session.None? && store.uses == old(store.uses)
      ensures token.Some? && old(request.session).Some? ==>
        && request.session == Some(old(request.session).value[cfg.sessionKey := token.value.token])
        && r == Success(AccessTokenUse(token.value.token, cleanedData["email"], cleanedData["name"],
                                       MetaOrUnknown(request.meta, "REMOTE_ADDR"),
                                       MetaOrUnknown(request.meta, "HTTP_USER_AGENT"), Some(now)))
        && store.uses == old(store.uses) + [r.value]
      ensures r.Success? && !HeaderPresent(request.meta, cfg.headerName) ==>
        GetRequestToken(request, cfg) == Success(Some(token.value.token))
    {
      if token.None? {
        return Failure(AssertionError);
      }
      var written := SetRequestToken(request, cfg, token.value.token);
      if written.Failure? {
        return Failure(Gate(written.error));
      }
      var u := store.Record(token.value, cleanedData["email"], cleanedData["name"], now,
                            MetaOrUnknown(request.meta, "REMOTE_ADDR"),
                            MetaOrUnknown(request.meta, "HTTP_USER_AGENT"));
      r := Success(u);
    }
  }

  /**
   * An accepted submission lets the next request through: once the accepted
   * token value is what the request carries, the gate passes it.
   */
  lemma AcceptedTokenPassesGate(data: FormData, cfg: Config, request: HttpRequest,
                                tokens: map<string, AccessToken>, cache: map<string, CacheEntry>,
                                now: int, today: int)
    requires WellKeyed(tokens) && Coherent(tokens, cache)
    requires CleanFields(data, tokens, today).errors == map[]
    requires GetRequestToken(request, cfg) == Success(Some(data.token.GetOr("")))
    ensures Decide(cfg, request, tokens, cache, now, today).0 == Success(PassThrough)
  {
    CleanFieldsAccepts(data, tokens, today);
    DecideRule(cfg, request, tokens, cache, now, today);
  }
}
