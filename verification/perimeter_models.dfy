/**
 * The current token model of the gate: access tokens, their validity, the
 * `EmptyToken` null object, and the token store with the write-through cache
 * in front of it and the audit log of token uses beside it.
 *
 * Time is two integers supplied by the caller: `now`, the current instant in
 * whole seconds since the epoch (UTC), and `today`, the local calendar date as
 * a day number (`date.today()`). Dates are day numbers; day `d` starts at
 * instant `d * SecondsPerDay`.
 */
module PerimeterModels {
  import opened Common

  const SecondsPerDay: int := 86400

  /** `PERIMETER_DEFAULT_EXPIRY`: days from now to a new token's expiry date. */
  const PerimeterDefaultExpiry: int := 7

  /** The `max_length` of the `token` column. */
  const MaxTokenLength: nat := 50

  /** The date of an instant (`datetime.date()` of a UTC timestamp). */
  function DateOf(instant: int): (d: int)
    ensures d * SecondsPerDay <= instant < (d + 1) * SecondsPerDay
  {
    instant / SecondsPerDay
  }

  /** `default_expiry()`: the date `expiryDays` days after the current instant. */
  function DefaultExpiry(now: int, expiryDays: int := PerimeterDefaultExpiry): (d: int)
    ensures d * SecondsPerDay <= now + expiryDays * SecondsPerDay < (d + 1) * SecondsPerDay
  {
    DateOf(now) + expiryDays
  }

  // ---------------------------------------------------------------------------
  // Tokens
  // ---------------------------------------------------------------------------

  /**
   * An `AccessToken` row or instance. `persisted` is false for an instance
   * that has never been saved (Django inserts it on its first save and
   * updates it afterwards). `createdAt` and `updatedAt` are unset (`None`)
   * until the first save. The `created_by` reference is not modelled.
   */
  datatype AccessToken = AccessToken(
    token: string,
    isActive: bool,
    expiresOn: int,
    createdAt: Option<int>,
    updatedAt: Option<int>,
    persisted: bool)

  /** A fresh instance, as `AccessToken(token=..., expires_on=..., is_active=...)` builds it. */
  function NewAccessToken(token: string, expiresOn: int, isActive: bool := true): (t: AccessToken)
    ensures t.token == token && t.expiresOn == expiresOn && t.isActive == isActive
    ensures t.createdAt.None? && t.updatedAt.None? && !t.persisted
  {
    AccessToken(token, isActive, expiresOn, None, None, false)
  }

  /** `has_expired`: the expiry date lies strictly before today. */
  predicate HasExpired(t: AccessToken, today: int) {
    t.expiresOn < today
  }

  /** `is_valid`: active and not expired. */
  predicate IsValid(t: AccessToken, today: int) {
    t.isActive && !HasExpired(t, today)
  }

  /** A token is valid exactly when it is active and today is on or before its expiry date. */
  lemma ValidityRule(t: AccessToken, today: int)
    ensures IsValid(t, today) <==> t.isActive && today <= t.expiresOn
  {
  }

  /** The expiry boundary: yesterday's token has expired, today's and tomorrow's have not. */
  lemma ExpiryBoundary(t: AccessToken, today: int)
    ensures t.expiresOn == today - 1 ==> HasExpired(t, today)
    ensures t.expiresOn == today ==> !HasExpired(t, today) && HasExpired(t, today + 1)
    ensures t.expiresOn == today + 1 ==> !HasExpired(t, today)
  {
  }

  /** An inactive token is invalid whatever its expiry date. */
  lemma InactiveNeverValid(t: AccessToken, today: int)
    requires !t.isActive
    ensures !IsValid(t, today)
  {
  }

  /**
   * What a lookup gives back: a token, or `EmptyToken`, the null object that
   * stands for "no such token".
   */
  datatype Lookup = Found(found: AccessToken) | EmptyToken

  /** `is_valid` of whatever a lookup gave back; `EmptyToken.is_valid` is `False`. */
  predicate LookupIsValid(l: Lookup, today: int) {
    match l
    case Found(t) => IsValid(t, today)
    case EmptyToken => false
  }

  /** `EmptyToken` is never valid; a found token is as valid as the token itself. */
  lemma LookupValidity(l: Lookup, today: int)
    ensures l.EmptyToken? ==> !LookupIsValid(l, today)
    ensures l.Found? ==> (LookupIsValid(l, today) <==> IsValid(l.found, today))
  {
  }

  // ---------------------------------------------------------------------------
  // Random token values
  // ---------------------------------------------------------------------------

  /**
   * The population `random_token_value` samples from, in the source's order:
   * `a`-`z`, then `A`-`Z`, then `1`-`9` and `0`.
   */
  function AlphabetChar(i: int): char
    requires 0 <= i < 62
  {
    if i < 26 then ('a' as int + i) as char
    else if i < 52 then ('A' as int + i - 26) as char
    else if i < 61 then ('1' as int + i - 52) as char
    else '0'
  }

  function Alphabet(): (a: string)
    ensures |a| == 62
    ensures forall i :: 0 <= i < 62 ==> a[i] == AlphabetChar(i)
  {
    seq(62, AlphabetChar)
  }

  predicate IsAlphanumeric(c: char) {
    ('a' <= c <= 'z') || ('A' <= c <= 'Z') || ('0' <= c <= '9')
  }

  /** The population holds 62 distinct alphanumeric characters. */
  lemma AlphabetFacts(i: int, j: int)
    requires 0 <= i < 62 && 0 <= j < 62
    ensures IsAlphanumeric(Alphabet()[i])
    ensures i != j ==> Alphabet()[i] != Alphabet()[j]
  {
  }

  /** What `random_token_value` promises of its value. */
  predicate IsRandomTokenValue(s: string) {
    && |s| == MaxTokenLength
    && (forall i :: 0 <= i < |s| ==> s[i] in Alphabet())
    && (forall i, j :: 0 <= i < j < |s| ==> s[i] != s[j])
  }

  /** Positions drawn without replacement from the population (what `random.sample` returns). */
  predicate IsSample(picks: seq<int>, k: nat) {
    && |picks| == k
    && (forall i :: 0 <= i < |picks| ==> 0 <= picks[i] < |Alphabet()|)
    && (forall i, j :: 0 <= i < j < |picks| ==> picks[i] != picks[j])
  }

  /**
   * `random_token_value`: the characters at `max_length` sampled positions,
   * joined. The random draw itself is the parameter `picks`.
   */
  function RandomTokenValue(picks: seq<int>): (s: string)
    requires IsSample(picks, MaxTokenLength)
    ensures IsRandomTokenValue(s)
    ensures forall i :: 0 <= i < |s| ==> IsAlphanumeric(s[i])
  {
    SampledCharacters(picks);
    Join(picks)
  }

  /** The characters at the given positions of the population. */
  function Join(picks: seq<int>): string
    requires forall i :: 0 <= i < |picks| ==> 0 <= picks[i] < |Alphabet()|
  {
    seq(|picks|, i requires 0 <= i < |picks| => Alphabet()[picks[i]])
  }

  /** Distinct positions of the population hold distinct alphanumeric characters. */
  lemma SampledCharacters(picks: seq<int>)
    requires IsSample(picks, |picks|)
    ensures |Join(picks)| == |picks|
    ensures forall i :: 0 <= i < |picks| ==> Join(picks)[i] in Alphabet() && IsAlphanumeric(Join(picks)[i])
    ensures forall i, j :: 0 <= i < j < |picks| ==> Join(picks)[i] != Join(picks)[j]
  {
    var s := Join(picks);
    forall i, j | 0 <= i < |s| && 0 <= j < |s|
      ensures IsAlphanumeric(s[i]) && (i != j ==> s[i] != s[j])
    {
      AlphabetFacts(picks[i], picks[j]);
    }
  }

  // ---------------------------------------------------------------------------
  // Cache keys and time to expiry
  // ---------------------------------------------------------------------------

  /** `'%s.%s-' % (cls.__module__, cls.__name__)`. */
  const CacheKeyPrefix: string := "perimeter.models.AccessToken-"

  /** Python's `'%s' % value` for a token value that may be `None`. */
  function Format(value: Option<string>): string {
    match value
    case Some(v) => v
    case None => "None"
  }

  /** `get_cache_key`: the namespaced cache key of a token value. */
  function GetCacheKey(value: Option<string>): (k: string)
    ensures |k| == |CacheKeyPrefix| + |Format(value)|
    ensures k[..|CacheKeyPrefix|] == CacheKeyPrefix
    ensures k[|CacheKeyPrefix|..] == Format(value)
  {
    CacheKeyPrefix + Format(value)
  }

  /** `cache_key`: the cache key of a token instance. */
  function CacheKey(t: AccessToken): (k: string)
    ensures |k| == |CacheKeyPrefix| + |t.token|
    ensures k[..|CacheKeyPrefix|] == CacheKeyPrefix && k[|CacheKeyPrefix|..] == t.token
  {
    GetCacheKey(Some(t.token))
  }

  /** Two token values share a cache key only if they are equal. */
  lemma CacheKeyInjective(a: string, b: string)
    ensures GetCacheKey(Some(a)) == GetCacheKey(Some(b)) ==> a == b
  {
    if GetCacheKey(Some(a)) == GetCacheKey(Some(b)) {
      calc {
        a;
        GetCacheKey(Some(a))[|CacheKeyPrefix|..];
        GetCacheKey(Some(b))[|CacheKeyPrefix|..];
        b;
      }
    }
  }

  /**
   * `seconds_to_expiry`: whole seconds from `now` to 00:00 of the expiry
   * date. The entry it is used for stays in the cache until that instant.
   */
  function SecondsToExpiry(t: AccessToken, now: int): (s: int)
    ensures now + s == t.expiresOn * SecondsPerDay
  {
    t.expiresOn * SecondsPerDay - now
  }

  /** The time to expiry is positive exactly when the expiry date is after the current date. */
  lemma SecondsToExpiryPositive(t: AccessToken, now: int)
    ensures SecondsToExpiry(t, now) > 0 <==> DateOf(now) < t.expiresOn
  {
  }

  /**
   * A token that expires today is still valid, but its time to expiry is not
   * positive, so the entry the cache receives for it is never live.
   */
  lemma ExpiringTodayIsValidButNotCacheable(t: AccessToken, now: int)
    requires t.isActive && t.expiresOn == DateOf(now)
    ensures IsValid(t, DateOf(now))
    ensures SecondsToExpiry(t, now) <= 0
  {
  }

  // ---------------------------------------------------------------------------
  // Saving: the timestamps
  // ---------------------------------------------------------------------------

  /**
   * The fields `save` sets before writing the row: `updated_at` is always
   * `now`, `created_at` keeps its value once set.
   */
  function Stamp(t: AccessToken, now: int): (r: AccessToken)
    ensures r.updatedAt == Some(now)
    ensures t.createdAt.Some? ==> r.createdAt == t.createdAt
    ensures t.createdAt.None? ==> r.createdAt == Some(now)
    ensures r.token == t.token && r.isActive == t.isActive && r.expiresOn == t.expiresOn
    ensures r.persisted
  {
    var created := if t.createdAt.Some? then t.createdAt else Some(now);
    t.(createdAt := created, updatedAt := Some(now), persisted := true)
  }

  /**
   * Saving twice keeps the first save's `created_at`; `updated_at` follows the
   * second save and is never earlier than `created_at` when the clock does not
   * go back.
   */
  lemma StampTwice(t: AccessToken, first: int, second: int)
    requires t.createdAt.None?
    requires first <= second
    ensures Stamp(Stamp(t, first), second).createdAt == Some(first)
    ensures Stamp(Stamp(t, first), second).updatedAt == Some(second)
    ensures Stamp(Stamp(t, first), second).createdAt.value <= Stamp(Stamp(t, first), second).updatedAt.value
  {
  }

  // ---------------------------------------------------------------------------
  // The cache and the store
  // ---------------------------------------------------------------------------

  /** A cached token and the instant at which the entry expires. */
  datatype CacheEntry = CacheEntry(token: AccessToken, expiresAt: int)

  /** `cache.get` finds an entry only while it has not expired. */
  predicate IsLive(cache: map<string, CacheEntry>, key: string, now: int) {
    key in cache && now < cache[key].expiresAt
  }

  /** Every stored token sits under its own value, and has been saved. */
  predicate WellKeyed(tokens: map<string, AccessToken>) {
    forall v :: v in tokens ==> tokens[v].token == v && tokens[v].persisted && tokens[v].createdAt.Some?
  }

  /**
   * Every cache entry sits under its token's cache key and holds exactly the
   * stored token with that value.
   */
  predicate Coherent(tokens: map<string, AccessToken>, cache: map<string, CacheEntry>) {
    forall k :: k in cache ==>
      && k == CacheKey(cache[k].token)
      && cache[k].token.token in tokens
      && tokens[cache[k].token.token] == cache[k].token
  }

  /** The store looked up directly (`AccessToken.objects.get(token=value)`). */
  function StoreLookup(tokens: map<string, AccessToken>, value: Option<string>): Lookup {
    if value.Some? && value.value in tokens then Found(tokens[value.value]) else EmptyToken
  }

  /**
   * `AccessTokenManager.get_access_token`, on values: the token it returns and
   * the cache it leaves. A live entry under the value's key is returned as it
   * is; otherwise the store is asked, and a stored token is cached until its
   * expiry and returned; otherwise `EmptyToken` and the cache is unchanged.
   * `value` is `None` when the caller has no token value at all.
   */
  function Resolve(tokens: map<string, AccessToken>, cache: map<string, CacheEntry>,
                   value: Option<string>, now: int): (r: (Lookup, map<string, CacheEntry>))
    ensures r.0 == EmptyToken ==> r.1 == cache
    ensures r.1 == cache || (value.Some? && value.value in tokens && r.0 == Found(tokens[value.value]))
  {
    var key := GetCacheKey(value);
    if IsLive(cache, key, now) then (Found(cache[key].token), cache)
    else if value.Some? && value.value in tokens then
      var t := tokens[value.value];
      (Found(t), cache[CacheKey(t) := CacheEntry(t, now + SecondsToExpiry(t, now))])
    else (EmptyToken, cache)
  }

  /**
   * For a token value, the cache is transparent: looking the value up through
   * the cache gives what the store holds, and the cache stays coherent.
   */
  lemma ResolveMatchesStore(tokens: map<string, AccessToken>, cache: map<string, CacheEntry>,
                            value: string, now: int)
    requires WellKeyed(tokens) && Coherent(tokens, cache)
    ensures Resolve(tokens, cache, Some(value), now).0 == StoreLookup(tokens, Some(value))
    ensures Coherent(tokens, Resolve(tokens, cache, Some(value), now).1)
  {
    var key := GetCacheKey(Some(value));
    if IsLive(cache, key, now) {
      CacheKeyInjective(cache[key].token.token, value);
    } else if value in tokens {
      var c' := Resolve(tokens, cache, Some(value), now).1;
      forall k | k in c'
        ensures k == CacheKey(c'[k].token) && c'[k].token.token in tokens
        ensures tokens[c'[k].token.token] == c'[k].token
      {
      }
    }
  }

  /**
   * Looking up no value at all: `'%s' % None` is `None`, so the key is that of
   * a token whose value is the text `"None"`. A live entry there gives back
   * what the table holds for `"None"`; otherwise `EmptyToken`. The cache is
   * never written, since no row can be fetched for `None`.
   */
  lemma ResolveTokenless(tokens: map<string, AccessToken>, cache: map<string, CacheEntry>, now: int)
    requires WellKeyed(tokens) && Coherent(tokens, cache)
    ensures GetCacheKey(None) == GetCacheKey(Some("None"))
    ensures Resolve(tokens, cache, None, now).1 == cache
    ensures Resolve(tokens, cache, None, now).0 ==
      if IsLive(cache, GetCacheKey(None), now) then StoreLookup(tokens, Some("None")) else EmptyToken
  {
    assert GetCacheKey(None) == GetCacheKey(Some("None"));
    if IsLive(cache, GetCacheKey(None), now) {
      ResolveMatchesStore(tokens, cache, "None", now);
    }
  }

  /**
   * The outcomes of a lookup: a hit returns the cached token and leaves the
   * cache alone; a miss on a stored token caches it under its key with an
   * entry that expires at 00:00 of its expiry date; a miss on an unknown value
   * gives `EmptyToken` and leaves the cache alone.
   */
  lemma ResolveOutcomes(tokens: map<string, AccessToken>, cache: map<string, CacheEntry>,
                        value: string, now: int)
    requires WellKeyed(tokens)
    ensures var (r, c') := Resolve(tokens, cache, Some(value), now);
      && (IsLive(cache, GetCacheKey(Some(value)), now) ==>
            r == Found(cache[GetCacheKey(Some(value))].token) && c' == cache)
      && (!IsLive(cache, GetCacheKey(Some(value)), now) && value in tokens ==>
            r == Found(tokens[value])
            && c' == cache[GetCacheKey(Some(value)) := CacheEntry(tokens[value], tokens[value].expiresOn * SecondsPerDay)])
      && (!IsLive(cache, GetCacheKey(Some(value)), now) && value !in tokens ==>
            r == EmptyToken && c' == cache)
  {
  }

  /** One row of the audit log (`AccessTokenUse`); `token` is the value of the token used. */
  datatype AccessTokenUse = AccessTokenUse(
    token: string,
    userEmail: string,
    userName: string,
    clientIp: string,
    clientUserAgent: string,
    timestamp: Option<int>)

  /**
   * The failures of the store: a unique-constraint violation, and the
   * refusal to delete an instance that was never saved (it has no primary key).
   */
  datatype StoreError = IntegrityError | NotSaved

  /**
   * The audit log once the uses of a deleted token have been cascaded away:
   * exactly the other rows, in their order.
   */
  function UsesWithout(uses: seq<AccessTokenUse>, value: string): (r: seq<AccessTokenUse>)
    ensures |r| <= |uses|
    ensures forall u :: u in r <==> u in uses && u.token != value
  {
    if uses == [] then []
    else if uses[0].token == value then UsesWithout(uses[1..], value)
    else [uses[0]] + UsesWithout(uses[1..], value)
  }

  /** Every use in the log refers to a stored token. */
  predicate UsesReferToTokens(uses: seq<AccessTokenUse>, tokens: map<string, AccessToken>) {
    forall u :: u in uses ==> u.token in tokens
  }

  /**
   * Deleting a token and cascading its uses away keeps every remaining use
   * pointing at a stored token.
   */
  lemma CascadeKeepsReferences(uses: seq<AccessTokenUse>, tokens: map<string, AccessToken>, value: string)
    requires UsesReferToTokens(uses, tokens)
    ensures UsesReferToTokens(UsesWithout(uses, value), tokens - {value})
  {
  }

  /** Cascading keeps the log's order: it distributes over concatenation. */
  lemma {:induction false} UsesWithoutAppend(a: seq<AccessTokenUse>, b: seq<AccessTokenUse>, value: string)
    ensures UsesWithout(a + b, value) == UsesWithout(a, value) + UsesWithout(b, value)
  {
    if a != [] {
      assert (a + b)[1..] == a[1..] + b;
      UsesWithoutAppend(a[1..], b, value);
    } else {
      assert a + b == b;
    }
  }

  /**
   * The token table, the cache in front of it and the audit log. Every
   * method keeps the cache coherent with the table, and every use refers to a
   * stored token, as the use's foreign key demands.
   */
  class AccessTokenStore {
    var tokens: map<string, AccessToken>
    var cache: map<string, CacheEntry>
    var uses: seq<AccessTokenUse>

    ghost predicate Valid()
      reads this
    {
      && WellKeyed(tokens) && Coherent(tokens, cache)
      && UsesReferToTokens(uses, tokens)
    }

    constructor ()
      ensures Valid()
      ensures tokens == map[] && cache == map[] && uses == []
    {
      tokens, cache, uses := map[], map[], [];
    }

    /**
     * `AccessToken.save` followed by the `post_save` handler. A never-saved
     * instance whose value is already taken violates the unique constraint;
     * otherwise the stamped token is written under its value and cached until
     * its expiry.
     */
    method SaveToken(t: AccessToken, now: int) returns (r: Result<AccessToken, StoreError>)
      requires Valid()
      modifies this`tokens, this`cache
      ensures Valid()
      ensures r.Failure? <==> !t.persisted && t.token in old(tokens)
      ensures r.Failure? ==> tokens == old(tokens) && cache == old(cache)
      ensures r.Success? ==>
        && r.value == Stamp(t, now)
        && tokens == old(tokens)[t.token := r.value]
        && cache == old(cache)[CacheKey(t) := CacheEntry(r.value, now + SecondsToExpiry(r.value, now))]
    {
      if !t.persisted && t.token in tokens {
        return Failure(IntegrityError);
      }
      var saved := Stamp(t, now);
      tokens := tokens[t.token := saved];
      // the post_save handler caches the saved token until its expiry
      cache := cache[CacheKey(saved) := CacheEntry(saved, now + SecondsToExpiry(saved, now))];
      forall k | k in cache
        ensures k == CacheKey(cache[k].token) && cache[k].token.token in tokens
        ensures tokens[cache[k].token.token] == cache[k].token
      {
        if k != CacheKey(saved) {
          CacheKeyInjective(cache[k].token.token, saved.token);
        }
      }
      r := Success(saved);
    }

    /**
     * `AccessToken.delete` followed by the `post_delete` handler: the row and
     * its cache entry go, and the foreign key cascades to the token's uses.
     * An instance that was never saved is refused and nothing changes.
     */
    method DeleteToken(t: AccessToken) returns (r: Result<(), StoreError>)
      requires Valid()
      modifies this`tokens, this`cache, this`uses
      ensures Valid()
      ensures r.Failure? <==> !t.persisted
      ensures r.Failure? ==> r.error == NotSaved && tokens == old(tokens) && cache == old(cache) && uses == old(uses)
      ensures r.Success? ==>
        && tokens == old(tokens) - {t.token}
        && cache == old(cache) - {CacheKey(t)}
        && uses == UsesWithout(old(uses), t.token)
    {
      if !t.persisted {
        return Failure(NotSaved);
      }
      r := Success(());
      tokens := tokens - {t.token};
      cache := cache - {CacheKey(t)};
      uses := UsesWithout(uses, t.token);
      forall k | k in cache
        ensures cache[k].token.token in tokens
      {
        CacheKeyInjective(cache[k].token.token, t.token);
      }
    }

    /**
     * `AccessTokenManager.create_access_token`: a new token with the given
     * value, or the random value, and the given expiry date, or the default
     * one, saved. The random value is drawn whether or not a value is given;
     * `picks` are the positions `random.sample` chose.
     */
    method CreateAccessToken(token: Option<string>, expiresOn: Option<int>, picks: seq<int>,
                             now: int, isActive: bool := true, expiryDays: int := PerimeterDefaultExpiry)
      returns (r: Result<AccessToken, StoreError>)
      requires Valid()
      requires IsSample(picks, MaxTokenLength)
      modifies this`tokens, this`cache
      ensures Valid()
      ensures var value := token.GetOr(RandomTokenValue(picks));
        && (r.Failure? <==> value in old(tokens))
        && (r.Failure? ==> tokens == old(tokens) && cache == old(cache))
        && (r.Success? ==>
              && r.value == AccessToken(value, isActive, expiresOn.GetOr(DefaultExpiry(now, expiryDays)),
                                        Some(now), Some(now), true)
              && tokens == old(tokens)[value := r.value]
              && cache == old(cache)[GetCacheKey(Some(value)) := CacheEntry(r.value, now + SecondsToExpiry(r.value, now))]
              && IsLive(cache, GetCacheKey(Some(value)), now) == (DateOf(now) < r.value.expiresOn)
              && GetCacheKey(Some(value)) in cache
              && cache[GetCacheKey(Some(value))].token == r.value)
    {
      var value := token.GetOr(RandomTokenValue(picks));
      var expiry := expiresOn.GetOr(DefaultExpiry(now, expiryDays));
      r := SaveToken(NewAccessToken(value, expiry, isActive), now);
      if r.Success? {
        SecondsToExpiryPositive(r.value, now);
      }
    }

    /** `AccessTokenManager.get_access_token`: the cache first, then the store. */
    method GetAccessToken(value: Option<string>, now: int) returns (r: Lookup)
      requires Valid()
      modifies this`cache
      ensures Valid()
      ensures (r, cache) == Resolve(tokens, old(cache), value, now)
    {
      var key := GetCacheKey(value);
      if key in cache && now < cache[key].expiresAt {
        r := Found(cache[key].token);
      } else if value.Some? && value.value in tokens {
        var t := tokens[value.value];
        cache := cache[CacheKey(t) := CacheEntry(t, now + SecondsToExpiry(t, now))];
        r := Found(t);
      } else {
        r := EmptyToken;
      }
      forall k | k in cache
        ensures k == CacheKey(cache[k].token) && cache[k].token.token in tokens
        ensures tokens[cache[k].token.token] == cache[k].token
      {
        if value.Some? && k != GetCacheKey(value) && value.value in tokens {
          CacheKeyInjective(cache[k].token.token, value.value);
        }
      }
    }

    /**
     * `AccessTokenUse.save`: the timestamp is set only if unset, and the row is
     * appended. The use must refer to a stored token.
     */
    method SaveUse(u: AccessTokenUse, now: int) returns (saved: AccessTokenUse)
      requires Valid() && u.token in tokens
      modifies this`uses
      ensures Valid()
      ensures saved == u.(timestamp := if u.timestamp.Some? then u.timestamp else Some(now))
      ensures uses == old(uses) + [saved]
    {
      saved := u.(timestamp := if u.timestamp.Some? then u.timestamp else Some(now));
      uses := uses + [saved];
    }

    /** `AccessToken.record`: exactly one audit row for this token, stamped `now`. */
    method Record(t: AccessToken, userEmail: string, userName: string, now: int,
                  clientIp: string := "unknown", clientUserAgent: string := "unknown")
      returns (u: AccessTokenUse)
      requires Valid() && t.token in tokens
      modifies this`uses
      ensures Valid()
      ensures u == AccessTokenUse(t.token, userEmail, userName, clientIp, clientUserAgent, Some(now))
      ensures uses == old(uses) + [u]
    {
      u := SaveUse(AccessTokenUse(t.token, userEmail, userName, clientIp, clientUserAgent, None), now);
    }
  }
}
