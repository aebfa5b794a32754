# django-perimeter in Dafny

A model of django-perimeter's core. django-perimeter is a site-wide access
gate for Django sites. Every request must carry a valid access token, or it is
sent to a gateway page where a token can be submitted. Two generations of the
gate are modelled, each in its own modules:

- The **current generation** (`perimeter/`):
  - `PerimeterModels`: tokens with an active flag and an expiry date. `EmptyToken` stands for "no such token". The token table sits behind a write-through cache, with an audit log of token uses beside it.
  - `PerimeterMiddleware`: the gate. It reads the token from a header or the session. It lets the request through when the token is valid, and otherwise redirects to the gateway with the original destination in `next`.
  - `FormEncoding`: the `application/x-www-form-urlencoded` serializer used for the `next` parameter. Characters outside the unreserved set of section 2.3 of RFC 3986 are written as percent-encoded UTF-8 bytes, and a space becomes `+`. A decoder is included, and the round trip through it is proved.
  - `GatewayForms`: the gateway form. It classifies a submitted token as valid, expired or invalid. On save it stores the token in the session and records one use.
- The **first generation** (`django_perimeter/models.py`, `middleware.py`):
  - `LegacyModels`: tokens that are valid through their expiry date.
  - `LegacyMiddleware`: the session-then-query-string state machine of the first gate.

`Common` holds `Option`, `Result` and Python setting values with their truthiness.

Everything the framework provides is replaced by values and small classes:

- The ORM table is a `map` from token value to token.
- The cache is a `map` from cache key to an entry with its expiry instant.
- The audit logs are `seq`s.
- The session is a `map` held in a mutable field of the request.

Time comes in as integers:

- `now` is the current instant in whole seconds.
- `today` is the local date as a day number.
- Day `d` starts at instant `d * 86400`.

Where the code and its design description differ, the model follows the code:

- The current gate reads the token from the header and the session only. Only the first generation reads the query string.
- The current gate never records a use. Only a form submission does, and so does a query-string entry in the first generation.
- Saving a token does not evict its cache entry. The `post_save` handler writes the new state over it, with a fresh time to live.
- The gateway form reports an expired token as `expired` even when the token is also inactive, because expiry is checked first.
- A duplicate token value fails with the database's integrity error.
- A request without a token is looked up under the cache key `perimeter.models.AccessToken-None`, as the code does. The intended lookup, where such a request meets `EmptyToken`, is given beside it (see "## Findings"). The two agree whenever no stored token has the value `None`.
- Deleting a token also deletes its uses, because the foreign key from a use to its token cascades.
- First-generation tokens created without an expiry date get the day after the day the module was imported, as the code does. The intended default, the day after creation, is given beside it.

## Model

| member | source | states |
|---|---|---|
| PerimeterModels.DateOf | perimeter/models.py:18-20 | the date of an instant is the day whose 86400 seconds contain it |
| PerimeterModels.DefaultExpiry | perimeter/models.py:18-20 | the default expiry is the date of the instant `PERIMETER_DEFAULT_EXPIRY` (7) days after now |
| PerimeterModels.NewAccessToken | perimeter/models.py:71-82 | a fresh instance keeps the given value and expiry, is active by default, and has no timestamps and no row yet |
| PerimeterModels.HasExpired | perimeter/models.py:157-160 | a token has expired once today is after its expiry date |
| PerimeterModels.IsValid | perimeter/models.py:162-165 | a token is valid when it is active and has not expired |
| PerimeterModels.ValidityRule | perimeter/models.py:157-165 | a token is valid exactly when it is active and today is on or before its expiry date |
| PerimeterModels.ExpiryBoundary | perimeter/models.py:157-160 | yesterday's token has expired; today's has not, and has expired tomorrow; tomorrow's has not |
| PerimeterModels.InactiveNeverValid | perimeter/models.py:162-165 | an inactive token is invalid whatever its expiry date |
| PerimeterModels.LookupValidity | perimeter/models.py:23-32 | `EmptyToken` is never valid; a found token is exactly as valid as the token |
| PerimeterModels.AlphabetFacts | perimeter/models.py:116-120 | the 62 characters of the population are alphanumeric and pairwise distinct |
| PerimeterModels.SampledCharacters | perimeter/models.py:111-123 | positions sampled without replacement give pairwise distinct alphanumeric characters, one per position |
| PerimeterModels.RandomTokenValue | perimeter/models.py:111-123 | a random token value has exactly 50 characters (the column's `max_length`), all from the population, none repeated |
| PerimeterModels.GetCacheKey | perimeter/models.py:125-133 | the cache key is the class prefix followed by the value as `%s` prints it (`None` for no value) |
| PerimeterModels.CacheKey | perimeter/models.py:142-145 | an instance's cache key is the class prefix followed by the instance's own token value |
| PerimeterModels.CacheKeyInjective | perimeter/models.py:125-145 | two token values share a cache key only if they are equal |
| PerimeterModels.SecondsToExpiry | perimeter/models.py:147-155 | now plus the time to expiry is 00:00 of the expiry date |
| PerimeterModels.SecondsToExpiryPositive | perimeter/models.py:147-155 | the time to expiry is positive exactly when the expiry date is after the current date |
| PerimeterModels.ExpiringTodayIsValidButNotCacheable | perimeter/models.py:147-165 | a token expiring today is valid, yet its time to expiry is not positive, so its cache entry is never live |
| PerimeterModels.Stamp | perimeter/models.py:135-140 | a save sets `updated_at` to now, sets `created_at` only when unset, and changes no other field |
| PerimeterModels.StampTwice | perimeter/models.py:135-140 | after two saves `created_at` is the first save's instant, `updated_at` the second's, and `created_at <= updated_at` |
| PerimeterModels.Resolve | perimeter/models.py:48-68 | the cache-first lookup: a live entry under the value's key, else the stored token, cached until its expiry, else `EmptyToken`; the cache is written only when the table was asked and held the token |
| PerimeterModels.ResolveMatchesStore | perimeter/models.py:48-68 | looking a value up through a coherent cache gives exactly what the table holds (or `EmptyToken`), and the cache stays coherent |
| PerimeterModels.ResolveTokenless | perimeter/models.py:48-68 | looking up no value uses the key of the token value `None`: a live entry there gives the table's token `None`, anything else `EmptyToken`, and the cache is not written |
| PerimeterModels.UsesWithout | perimeter/migrations/0001_initial.py:37 | after the cascade the log holds exactly the uses of other tokens, and is no longer than before |
| PerimeterModels.UsesWithoutAppend | perimeter/migrations/0001_initial.py:37 | the cascade keeps the log's order: it distributes over concatenation |
| PerimeterModels.CascadeKeepsReferences | perimeter/models.py:200 | after a token is deleted and its uses cascaded away, every remaining use still refers to a stored token |
| PerimeterModels.ResolveOutcomes | perimeter/models.py:48-68 | a hit returns the cached token and leaves the cache alone; a miss on a stored token caches it until 00:00 of its expiry date; a miss on an unknown value gives `EmptyToken` and leaves the cache alone |
| PerimeterModels.AccessTokenStore.SaveToken | perimeter/models.py:135-189 | an unsaved instance with a taken value is an integrity error and changes nothing; otherwise the stamped token is written under its value and cached under its key until its expiry, and the cache stays coherent with the table |
| PerimeterModels.AccessTokenStore.DeleteToken | perimeter/models.py:192-200 | an instance that was never saved is refused and nothing changes; otherwise deleting removes the row, its cache entry and, by the cascading foreign key, every use of the token, keeping the other uses in order; the cache stays coherent |
| PerimeterModels.AccessTokenStore.CreateAccessToken | perimeter/models.py:38-46 | a given value and expiry are kept; otherwise the random value and the default expiry are used; the new token is active unless told otherwise, saved once with both timestamps at now, stored, and cached under its key until its expiry with every other cache entry unchanged; a taken value fails and changes nothing |
| PerimeterModels.AccessTokenStore.GetAccessToken | perimeter/models.py:48-68 | the lookup and the cache it leaves are those of the cache-first lookup, and the cache stays coherent |
| PerimeterModels.AccessTokenStore.SaveUse | perimeter/models.py:223-227 | for a use of a stored token, the timestamp is set to now only when unset, exactly that row is appended, and every use still refers to a stored token |
| PerimeterModels.AccessTokenStore.Record | perimeter/models.py:167-183 | recording a stored token appends exactly one use for it, stamped now, with the given email and name and `'unknown'` address and agent by default |
| FormEncoding.FormEncode | perimeter/middleware.py:58 | the encoding is at least as long as its input |
| FormEncoding.FormEncodeAlphabet | perimeter/middleware.py:58 | the encoding uses only unreserved characters, `+`, `%` and upper-case hex digits |
| FormEncoding.Utf8RoundTrip | perimeter/middleware.py:58 | decoding the UTF-8 bytes of a string gives the string back |
| FormEncoding.FormRoundTrip | perimeter/middleware.py:58 | decoding the form encoding of a string gives the string back |
| FormEncoding.UnreservedUnchanged | perimeter/middleware.py:58 | a string of unreserved characters is its own encoding |
| FormEncoding.ReservedNeverBare | perimeter/middleware.py:58 | no character outside the encoded alphabet (such as `&`, `=`, `?`, `/`, `#`) appears in an encoding |
| FormEncoding.FormEncodeAppend | perimeter/middleware.py:58 | encoding distributes over concatenation |
| FormEncoding.NextQuery | perimeter/middleware.py:58 | the `next` query is `next=` followed by a value that decodes to the given path |
| FormEncoding.NextQueryPathExample | tests/test_middleware.py:124-130 | the `next` query for `/somepath/` is `next=%2Fsomepath%2F` |
| FormEncoding.NextQueryPathAndQueryExample | tests/test_middleware.py:132-138 | the `next` query for `/somepath/?important=param` is `next=%2Fsomepath%2F%3Fimportant%3Dparam` |
| PerimeterMiddleware.CheckMiddleware | perimeter/middleware.py:21-33 | without a session the result is `ImproperlyConfigured`; with one it is exactly the wrapped function's result |
| PerimeterMiddleware.HeaderOrSession | perimeter/middleware.py:36-41 | a non-empty header wins; otherwise the session's value under the key; otherwise none |
| PerimeterMiddleware.GetRequestToken | perimeter/middleware.py:36-41 | the request token is the header or session value when there is a session, and a configuration error when not |
| PerimeterMiddleware.HeaderTakesPrecedence | perimeter/middleware.py:36-41 | with a header present, the session's contents do not matter |
| PerimeterMiddleware.SetRequestToken | perimeter/middleware.py:44-47 | the value is written under the session key and nothing else changes; without a session it is a configuration error; without a header the token read back is the value written |
| PerimeterMiddleware.SetTokenChangesOneKey | perimeter/middleware.py:44-47 | writing the token leaves every other session key as it was |
| PerimeterMiddleware.LookupRequestAsWritten | perimeter/middleware.py:50-53 | the request's token value, `None` included, goes to the cache-first lookup; a configuration error passes through |
| PerimeterMiddleware.LookupRequest | perimeter/middleware.py:50-53 | the intended lookup: a request without a token meets `EmptyToken`, one with a token goes to the cache-first lookup |
| PerimeterMiddleware.GetAccessToken | perimeter/middleware.py:50-53 | the request's token value, `None` included, is handed to the cache-first lookup, and the cache stays coherent |
| PerimeterMiddleware.LookupRequestAsWrittenMatchesStore | perimeter/middleware.py:50-53 | a token value resolves to what the table holds for it; no token resolves to the table's token `None` while its cache entry is live, otherwise to `EmptyToken`; the cache stays coherent |
| PerimeterMiddleware.LookupsAgreeWithoutNoneToken | perimeter/middleware.py:50-53 | when no stored token has the value `None`, the lookup as written and the intended one give the same result and cache |
| PerimeterMiddleware.LookupRequestMatchesStore | perimeter/middleware.py:50-53 | the intended lookup gives `EmptyToken` for a request with no token or an unknown one, and the stored token otherwise |
| PerimeterMiddleware.TokenlessRequestNeverAdmitted | perimeter/middleware.py:50-53 | a request without a token gets `EmptyToken` and leaves the cache unchanged |
| PerimeterMiddleware.TokenlessRequestAdmittedAsWritten | perimeter/middleware.py:50-53 | as written, a cached valid token whose value is the text `None` is found for a request with no token |
| PerimeterMiddleware.FullPath | perimeter/middleware.py:58 | the full path is the path, followed by `?` and the query string when there is one |
| PerimeterMiddleware.GetRedirectUrl | perimeter/middleware.py:56-60 | the redirect is the gateway path, `?next=` and a value that decodes to the full path and contains no `&` or `#` |
| PerimeterMiddleware.RedirectUrlParts | perimeter/middleware.py:56-60 | the redirect is the gateway path, `?` and the `next` query of the full path |
| PerimeterMiddleware.RedirectForPathExample | tests/test_middleware.py:124-130 | a request for `/somepath/` is redirected to the gateway with `next=%2Fsomepath%2F` |
| PerimeterMiddleware.RedirectForPathAndQueryExample | tests/test_middleware.py:132-138 | a request for `/somepath/?important=param` is redirected with `next=%2Fsomepath%2F%3Fimportant%3Dparam` |
| PerimeterMiddleware.CheckEnabled | perimeter/middleware.py:71-80 | the gate is refused with `MiddlewareNotUsed` exactly when the setting is the literal `False` |
| PerimeterMiddleware.PerimeterAccessMiddleware.Create | perimeter/middleware.py:71-80 | construction fails with `MiddlewareNotUsed` exactly when the setting is `False`, and otherwise keeps the configuration |
| PerimeterMiddleware.Decide | perimeter/middleware.py:82-90 | a bypassed request passes; otherwise the as-written lookup decides: an error passes through, a valid token passes, anything else is redirected to the gateway |
| PerimeterMiddleware.DecideRule | perimeter/middleware.py:82-90 | a bypassed request passes with the cache untouched; without a session the gate reports the configuration error; otherwise the request passes exactly when its token is stored and valid, or it has no token and the stored token `None` is valid with a live cache entry, and it is redirected to the gateway with its full path when not; with no stored token `None`, passing is exactly having a stored valid token; the cache stays coherent |
| PerimeterMiddleware.PerimeterAccessMiddleware.ProcessRequest | perimeter/middleware.py:82-90 | the answer and the cache are those of the decision; the table and the audit log are unchanged, and the session is not written |
| GatewayForms.CleanCharField | perimeter/forms.py:21-23 | a field passes exactly when it is given, non-empty and within its maximum length, and gives back the value; otherwise it reports `required` or the length limit |
| GatewayForms.ClassifyToken | perimeter/forms.py:25-37 | an unknown token is `invalid`, a valid one is accepted, an expired one is `expired`, and an inactive one is `invalid` |
| GatewayForms.ClassifyTokenCases | perimeter/forms.py:25-37 | accepted exactly when the token exists and is valid; `expired` exactly when it exists and has expired, active or not; inactive-but-unexpired and unknown tokens are `invalid` |
| GatewayForms.CleanFields | perimeter/forms.py:21-37 | the token, email and name fields are cleaned in order, each value or error filed under its field |
| GatewayForms.CleanFieldsAccepts | perimeter/forms.py:21-37 | a submission is accepted exactly when all three fields are given, token and name are at most 100 characters, and the token exists and is valid; the accepted values are the submitted ones |
| Common.MetaOrUnknown | perimeter/forms.py:50-51 | a header value when present, `'unknown'` when absent (the same lookup as the first generation's, `middleware.py`:68-69) |
| GatewayForms.GatewayForm.CleanToken | perimeter/forms.py:25-37 | the verdict is the token classification of the table itself (not the cache); a found token is kept on the form whatever the verdict |
| GatewayForms.GatewayForm.IsValid | perimeter/forms.py:21-37 | the cleaned values and errors are those of cleaning the three fields in order; the form is valid exactly when nothing was rejected |
| GatewayForms.GatewayForm.Save | perimeter/forms.py:43-52 | without a found token, an assertion failure and no change; without a session, a configuration error and no use; otherwise the token's value goes into the session and exactly one use is appended, with the email, name, `REMOTE_ADDR` and `HTTP_USER_AGENT` (`'unknown'` when absent) |
| GatewayForms.AcceptedTokenPassesGate | perimeter/forms.py:43-47 | once an accepted token is what a request carries, the gate lets that request through |
| LegacyModels.Tomorrow | django_perimeter/models.py:10-14 | tomorrow is exactly one day after today |
| LegacyModels.HasExpired | django_perimeter/models.py:31-33 | a token has expired once today is after its expiry date |
| LegacyModels.IsValid | django_perimeter/models.py:35-42 | a token is valid exactly when it has not expired |
| LegacyModels.ValidThroughExpiryDate | django_perimeter/models.py:31-42 | a token is valid exactly through its expiry date, with no active flag |
| LegacyModels.ExpiresAtDefaultAsWritten | django_perimeter/models.py:27 | as written, the default expiry date is the day after the import day, whatever the creation day |
| LegacyModels.ExpiresAtDefault | django_perimeter/models.py:27 | the intended default expiry date is the day after creation |
| LegacyModels.NewAccessToken | django_perimeter/models.py:25-28 | a new token keeps its email and value, takes the given expiry date or else the field's default, and is stamped now |
| LegacyModels.StaleDefaultExpiresAtCreation | django_perimeter/models.py:27 | as written, a token created without an expiry date two or more days after import has already expired |
| LegacyModels.DefaultExpiryGivesTwoDays | django_perimeter/models.py:10-27 | with the default taken at creation, a new token is valid on its creation day and the next, and not after |
| LegacyModels.LegacyStore.CreateToken | django_perimeter/models.py:25-28 | a taken value is an integrity error and changes nothing; otherwise the new token is stored under its value, which keeps values unique; without an expiry date it gets the day after the import day |
| LegacyModels.LegacyStore.RecordUsage | django_perimeter/models.py:44-53 | for a stored token, exactly one usage is appended, stamped now, with address `'0.0.0.0'` and agent `'unknown'` by default, and every usage still refers to a stored token |
| LegacyMiddleware.CheckEnabled | middleware.py:30-37 | the gate is built exactly when the setting exists and is truthy |
| LegacyMiddleware.EnabledChecksDiffer | middleware.py:30-37 | a missing setting, `None`, `0` and `''` switch this gate off but not the current one; `False` switches both off and `True` neither |
| LegacyMiddleware.PerimeterAccessMiddleware.Create | middleware.py:23-42 | construction fails with `MiddlewareNotUsed` exactly when the setting is missing or falsy, and the session key is the configured one or `'pt'` |
| LegacyMiddleware.Process | middleware.py:44-77 | the step-by-step gate: admin path, then a valid session token, then a non-empty query-string token that is stored and valid (logged and put in the session), else a returned or raised refusal |
| LegacyMiddleware.ProcessOutcome | middleware.py:44-77 | a request passes exactly when its path starts with `/admin`, its session holds a valid token, or its query string names a stored valid token; other query-string tokens get a returned refusal, and no query-string token a raised one |
| LegacyMiddleware.ProcessEffects | middleware.py:48-71 | admin and session passes change nothing; every other request loses its invalid session token; a query-string entry puts the stored token in the session and logs exactly one usage with `X-Forwarded-For` and `User-Agent` (`'unknown'` when absent); no other request logs; no other session key changes |
| LegacyMiddleware.LoggedOnlyOnEntry | middleware.py:54-71 | after a query-string entry, the next request of that session on the same day passes on its session and logs nothing |
| LegacyMiddleware.PerimeterAccessMiddleware.ProcessRequest | middleware.py:44-77 | the outcome, the new session and the appended usages are exactly those of the step-by-step decision |

## Left out

- The Django ORM, cache backend and session framework are replaced by maps and sequences. A cache entry past its expiry instant is never returned, but it is not purged.
- Rows have no ids; a token is identified by its value. Saving a stored token under a new value, which would leave the old row's cache entry behind, is not modelled.
- Timezone handling in `seconds_to_expiry` is not modelled. Instants are UTC and 00:00 of a date is `date * 86400`. The `make_naive` branch cannot be reached, because `datetime.combine` gives a naive value and `make_naive` is never imported.
- Sub-second precision and the truncating `int()` of `seconds_to_expiry` are not modelled; instants are whole seconds.
- `random.sample` is not modelled. The positions it picks are an input satisfying "50 distinct positions in the population".
- FormEncoding.FormEncode: models `quote_plus` as in Python 3.7 and later, which leaves `~` bare. Under Python 3.6, `~` is written `%7E`, so `UnreservedUnchanged` and `FormEncodeAlphabet` describe Python 3.7 and later only. The round trip holds under either version.
- Django's `get_full_path` escapes the path with `escape_uri_path` and the query with `iri_to_uri`. Both are taken as already escaped.
- perimeter/settings.py and the URL configuration are not part of this model. So `reverse("perimeter:gateway")`, the token header name `HTTP_X_PERIMETER_TOKEN` and `PERIMETER_BYPASS_FUNCTION` are configuration parameters: the gateway path, the header's `META` key and the bypass predicate.
- Email-address validation by `EmailField` and the whitespace stripping of `CharField` are Django's and are not modelled. The email field is only required to be non-empty.
- GatewayForms.GatewayForm.Save: requires the email and name to be among the cleaned values. The source reads them with `.get`; a missing one would reach the non-null audit columns, which the database rejects, and that is not modelled.
- PerimeterModels.AccessTokenStore.SaveToken: does not enforce the 50-character column length of token values or the lengths of the use columns. Whether a longer value is rejected depends on the database.
- PerimeterModels.AccessTokenStore.SaveToken: the arguments `save` passes on to Django (`update_fields`, `force_insert`, `using`) are not modelled; every save writes the whole instance. With `update_fields` the row keeps its unlisted fields while the `post_save` handler caches the whole in-memory instance, so the cache can disagree with the table; the model's cache coherence holds only for whole-instance saves.
- LegacyModels.LegacyStore.CreateToken: does not enforce the 10-character column length of token values or the lengths of the usage columns, so that limit is not an invariant of the store.
- The `created_by` reference of both token models is not modelled.
- The first-generation session holds only token objects. Any other value under the session key is not modelled.
- Log messages of the first-generation middleware are not modelled.
- Display strings (`__unicode__`/`__str__`), the admin classes, views, URL configuration, management commands, migrations and the browser extension are not modelled.
- Concurrent requests and races on the unique token value are not modelled; each operation runs alone.

## Findings

| source | as written | input that shows it | evidently intended | confidence | as-written member | corrected member |
|---|---|---|---|---|---|---|
| perimeter/middleware.py:50-53 | a request with no token is looked up under the key `perimeter.models.AccessToken-None`. That is also the cache key of a token whose value is the text `None`. | a stored, active, unexpired token with value `None` that is in the cache, plus a request with no header and no session token: the gate lets the request through | a request without a token meets `EmptyToken` and is redirected | medium, not executed | PerimeterMiddleware.TokenlessRequestAdmittedAsWritten | PerimeterMiddleware.TokenlessRequestNeverAdmitted |
| django_perimeter/models.py:27 | `default=tomorrow()` is evaluated once, when the module is imported | a process started on day `d` creates a token without an expiry date on day `d + 2`. The token expires on day `d + 1`, so it is invalid when created. | the default is the day after creation, as the current model does by passing the callable (perimeter/models.py:77-79) | high, not executed | LegacyModels.StaleDefaultExpiresAtCreation | LegacyModels.DefaultExpiryGivesTwoDays |
