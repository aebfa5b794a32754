/**
 * The first generation of the token model: tokens that are valid until the
 * end of their expiry date, with no active flag, and an audit log of the
 * times a token was first seen on a machine.
 *
 * `today` is the local calendar date as a day number, `now` the current
 * instant in whole seconds.
 */
module LegacyModels {
  import opened Common

  /** The `max_length` of the `token` column. */
  const MaxTokenLength: nat := 10

  /** `tomorrow()`: the day after the given day. */
  function Tomorrow(today: int): (d: int)
    ensures d > today && d - today == 1
  {
    today + 1
  }

  /** An `AccessToken` row; the `created_by` reference is not modelled. */
  datatype AccessToken = AccessToken(email: string, token: string, expiresAt: int, createdAt: int)

  /** `has_expired`: today is after the expiry date. */
  predicate HasExpired(t: AccessToken, today: int) {
    today > t.expiresAt
  }

  /** `is_valid`: not expired; there is no active flag in this generation. */
  predicate IsValid(t: AccessToken, today: int) {
    !HasExpired(t, today)
  }

  /** A token is valid up to and including its expiry date, and not a day longer. */
  lemma ValidThroughExpiryDate(t: AccessToken, today: int)
    ensures IsValid(t, today) <==> today <= t.expiresAt
    ensures IsValid(t, t.expiresAt) && !IsValid(t, t.expiresAt + 1)
  {
  }

  /**
   * The expiry date a token gets when none is given, as written: the field
   * default is `tomorrow()` called once, on the day the module was imported,
   * so it is the same whatever the day the token is created.
   */
  function ExpiresAtDefaultAsWritten(importDay: int): int {
    Tomorrow(importDay)
  }

  /** The expiry date a token gets when none is given: the day after its creation. */
  function ExpiresAtDefault(creationDay: int): (d: int)
    ensures d == Tomorrow(creationDay)
  {
    Tomorrow(creationDay)
  }

  /**
   * A token created without an expiry date two or more days after the
   * process started has already expired when it is created.
   */
  lemma StaleDefaultExpiresAtCreation(importDay: int, creationDay: int, email: string, token: string, now: int)
    requires creationDay >= importDay + 2
    ensures !IsValid(NewAccessToken(email, token, None, ExpiresAtDefaultAsWritten(importDay), now), creationDay)
  {
  }

  /** With the default taken on the day of creation, a new token is valid that day and the next. */
  lemma DefaultExpiryGivesTwoDays(creationDay: int, email: string, token: string, now: int)
    ensures IsValid(NewAccessToken(email, token, None, ExpiresAtDefault(creationDay), now), creationDay)
    ensures IsValid(NewAccessToken(email, token, None, ExpiresAtDefault(creationDay), now), creationDay + 1)
    ensures !IsValid(NewAccessToken(email, token, None, ExpiresAtDefault(creationDay), now), creationDay + 2)
  {
    ValidThroughExpiryDate(NewAccessToken(email, token, None, ExpiresAtDefault(creationDay), now), creationDay + 2);
  }

  /**
   * A new token: the given expiry date or the field's default, `created_at`
   * set to now. `defaultExpiresAt` is the value the field's default holds.
   */
  function NewAccessToken(email: string, token: string, expiresAt: Option<int>, defaultExpiresAt: int, now: int)
    : (t: AccessToken)
    ensures t.email == email && t.token == token && t.createdAt == now
    ensures expiresAt.Some? ==> t.expiresAt == expiresAt.value
    ensures expiresAt.None? ==> t.expiresAt == defaultExpiresAt
  {
    AccessToken(email, token, expiresAt.GetOr(defaultExpiresAt), now)
  }

  /** One `AccessTokenUsage` row; `token` is the value of the token used. */
  datatype AccessTokenUsage = AccessTokenUsage(token: string, timestamp: int, clientIp: string, clientUserAgent: string)

  datatype StoreError = IntegrityError

  /**
   * The token table and the usage log. `importDay` is the day the models
   * module was imported, when the expiry default was computed. Every usage
   * refers to a stored token, as the usage's foreign key demands.
   */
  class LegacyStore {
    const importDay: int
    var tokens: map<string, AccessToken>
    var usages: seq<AccessTokenUsage>

    /** Every token sits under its own value, so values are unique. */
    ghost predicate Valid()
      reads this
    {
      && (forall v :: v in tokens ==> tokens[v].token == v)
      && (forall u :: u in usages ==> u.token in tokens)
    }

    constructor (importDay: int)
      ensures this.importDay == importDay
      ensures Valid() && tokens == map[] && usages == []
    {
      this.importDay := importDay;
      tokens, usages := map[], [];
    }

    /**
     * Inserting a token; a value already taken violates the unique
     * constraint. Without an expiry date the token gets the import-time
     * default, whatever the day.
     */
    method CreateToken(email: string, token: string, expiresAt: Option<int>, now: int)
      returns (r: Result<AccessToken, StoreError>)
      requires Valid()
      modifies this`tokens
      ensures Valid()
      ensures r.Failure? <==> token in old(tokens)
      ensures r.Failure? ==> tokens == old(tokens)
      ensures r.Success? ==>
        r.value == NewAccessToken(email, token, expiresAt, ExpiresAtDefaultAsWritten(importDay), now)
        && tokens == old(tokens)[token := r.value]
    {
      if token in tokens {
        return Failure(IntegrityError);
      }
      var t := NewAccessToken(email, token, expiresAt, ExpiresAtDefaultAsWritten(importDay), now);
      tokens := tokens[token := t];
      r := Success(t);
    }

    /** `record_usage`: exactly one usage row for the token, stamped now. */
    method RecordUsage(t: AccessToken, now: int, clientIp: string := "0.0.0.0", clientUserAgent: string := "unknown")
      returns (u: AccessTokenUsage)
      requires Valid() && t.token in tokens
      modifies this`usages
      ensures Valid()
      ensures u == AccessTokenUsage(t.token, now, clientIp, clientUserAgent)
      ensures usages == old(usages) + [u]
    {
      u := AccessTokenUsage(t.token, now, clientIp, clientUserAgent);
      usages := usages + [u];
    }
  }
}
