# HubSpot CRM gateway: token cache and read-through page cache

A Dafny model of the stateful core of a Flask gateway in front of the HubSpot CRM:

- **Cache** (`redis_client.dfy`): `RedisClient` over an in-memory Redis. Each key maps to a value and the absolute time at which Redis drops it. Every operation gets the clock as an integer `now`. `set_cache` writes with the default 3600-second lifetime. `get_cache` sees only unexpired keys. `delete_cache` removes one key. `set_token` and `get_token` keep the `{token, expiration_time}` record under `"hubspot_token"`; `get_token` deletes the record once it has expired.
- **Services** (`hubspot_client.dfy`): `HubSpotClient`, the access-token provider. It serves a valid cached token. Otherwise it sends one refresh POST to the OAuth endpoint, stores the new token and remembers it in `accessToken`. The POST is a function from the request to an abstract reply (status, token, `expires_in`, text).
- **PageCache** (`page_cache.dfy`): the read-through cache behind `get_recent_contacts` and `get_recent_tickets`. Keys are `"{resource}_page_{page}_size_{page_size}"`. A hit answers without a backend call. A miss asks the backend once, caches a success for 3600 seconds, and answers `[]` on a backend error without caching. `Serve` is the function that specifies it.
- **ContactService** (`contact_service.dfy`): create-or-update dispatch on the email search, the two write payloads, the contacts page query and the 429 check.
- **TicketService** (`support_ticket_service.dfy`): the ticket payload (six copied properties, then the contact and deal associations) and the tickets page query.
- **Integration** (`integration.dfy`): the `/new_crm_objects` route. It applies the query defaults and lists contacts, deals and tickets with one `(page, page_size)`. It then sorts each list in place by a record field (an insertion sort on an array) and keeps the records whose printed form contains the filter, ignoring case.
- **Strings**, **Types**, **Wrappers**: decimal printing of integers, Python string ordering, ASCII `lower()`, substring test; the shared values and errors.

Backend and OAuth calls are function parameters. The requests an operation sends are returned with its result, so "no backend call" and "exactly one refresh" are stated about those return values.

Three behaviours of the code that a reader might not expect, all kept in the model:
- The token entry's store lifetime is always the default 3600 seconds, whatever `expires_in` is (`TokenEntryOutlivedByExpiry`).
- A cached page that does not decode raises, because `json.loads` sits outside the `try`. A backend error on a miss answers `[]` and is not raised.
- A cached token value that is not a token record makes `eval` fail, and the failure is raised. It is not treated as a miss.

## Model

| member | source | states |
|---|---|---|
| Cache.ReadToken | app/redis/redis_client.py:38-47 | a token is answered only from an unexpired token record whose `expiration_time` is still ahead; an unreadable value is reported; the store changes only by deleting a token record whose `expiration_time` has passed |
| Cache.LoadRecord | app/services/__init__.py:24-27 | the pair is found iff a live entry holds a token record, and it is that record's token and `expiration_time`, with no expiry check; a truthy non-record value is unreadable |
| Cache.RedisClient.SetCache | app/redis/redis_client.py:17-19 | the key's entry is replaced wholesale by the value with expiry `now + timeout` (default 3600); other keys read as before |
| Cache.RedisClient.GetCache | app/redis/redis_client.py:21-23 | answers the value exactly when the key is present and unexpired; changes nothing |
| Cache.RedisClient.DeleteCache | app/redis/redis_client.py:25-27 | the key reads as absent at every time; every other key reads as before |
| Cache.RedisClient.SetToken | app/redis/redis_client.py:29-36 | `{token, now + expires_in}` is written under `"hubspot_token"` with the default 3600-second lifetime |
| Cache.RedisClient.GetToken | app/redis/redis_client.py:38-47 | answer and new store are those of `ReadToken`: the token while valid, deletion and no token once expired, nothing changed when absent or falsy, an eval failure for a non-record value |
| Cache.RedisClient.LoadToken | app/services/__init__.py:24-27 | the pair-returning lookup `get_access_token` expects: the stored `(token, expiration_time)` when the entry is alive and is a token record; changes nothing |
| Cache.SetThenGet | app/redis/redis_client.py:17-23 | a value set at `now` is read back unchanged before `now + timeout` and is absent from then on |
| Cache.SetTokenThenGetToken | app/redis/redis_client.py:29-44 | after `set_token(t, e)`, `get_token` before both deadlines answers `t` and leaves the store unchanged |
| Cache.ExpiredTokenIsDeleted | app/redis/redis_client.py:43-47 | at `now >= expiration_time`, `get_token` answers no token and removes `"hubspot_token"` |
| Cache.TokenEntryOutlivedByExpiry | app/redis/redis_client.py:29-36 | 3600 seconds after `set_token` the record is gone, even when `expires_in` is longer |
| Cache.NoTokenLeavesStoreAlone | app/redis/redis_client.py:38-41 | with no visible entry or a falsy one, `get_token` answers no token and changes nothing |
| Cache.ReadTokenTouchesOnlyTokenKey | app/redis/redis_client.py:38-47 | `get_token` leaves every other key as it was |
| Cache.LoadAgreesWithReadToken | app/redis/redis_client.py:38-47 | `get_token` answers a token exactly when the pair lookup finds an unexpired record, and then the same token |
| Services.RefreshRequest | app/services/__init__.py:45-51 | the POST goes to the token URL with grant_type `"refresh_token"` and the configured client id, secret and refresh token |
| Services.Decide | app/services/__init__.py:26-41 | serve the cached token iff a record is found with `now < expiration_time`; refresh iff it is missing or expired; raise iff it is unreadable |
| Services.DecideAsWritten | app/services/__init__.py:24-41 | fed by `get_token`'s bare string it never serves a cached token; it refreshes only when there is no token or an empty one |
| Services.HubSpotClient.RefreshAccessToken | app/services/__init__.py:43-70 | exactly one POST; on 200 `accessToken` becomes the new token and the store is updated as by `set_token(token, expires_in)`; otherwise it raises and changes neither |
| Services.HubSpotClient.GetAccessToken | app/services/__init__.py:21-41 | valid record: that token, no request sent, state unchanged; missing or expired record: exactly one refresh request and the refreshed `accessToken` answered |
| Services.HubSpotClient.GetAccessTokenAsWritten | app/services/__init__.py:21-41 | with `get_token` as the lookup it raises, with no request sent, whenever a valid non-empty token is cached |
| Services.DecisionAfterStore | app/services/__init__.py:26-36 | a token stored with `expires_in = e` at `t0` is served at every `now < min(t0 + e, t0 + 3600)` and refreshed from then on: at `now >= t0 + e`, and at `now >= t0 + 3600` when the store has dropped the entry |
| Services.AsWrittenRaisesOnCachedToken | app/services/__init__.py:24-31 | `"abc123"` stored at 0 for 3600 s and asked for at 1000: the code as written raises ValueError; the pair lookup serves it |
| Services.AsWrittenNeverServesValidToken | app/services/__init__.py:24-31 | for every store, a valid non-empty token from `get_token` makes the as-written provider raise, where the pair lookup serves it |
| PageCache.PageKey | app/services/contact_service.py:107 | the key starts with the resource name and `_page_`; with `PageKeyInjective`, the numbers after it determine page and page size |
| PageCache.Serve | app/services/contact_service.py:105-126 | no backend request iff the key holds a live truthy value; otherwise exactly `RequestFor(page, page_size)`; a failure is a decode ValueError of a hit; the store is unchanged or gains the served page under the key for 3600 s |
| PageCache.RequestFor | app/services/contact_service.py:115-116 | a miss asks for `limit = page_size`, `after = page * page_size` |
| PageCache.GetRecentPage | app/services/contact_service.py:105-126 | answer, new store and backend requests are those of `Serve` |
| PageCache.PageKeyInjective | app/services/contact_service.py:107 | distinct `(page, page_size)` pairs give distinct cache keys |
| PageCache.KeyNamespacesDisjoint | app/services/support_ticket_service.py:80 | ticket keys never equal contact keys or `"hubspot_token"` |
| PageCache.HitSkipsBackend | app/services/contact_service.py:108-111 | a cached page is answered decoded, with no backend request and no store change |
| PageCache.MissFetchesOnce | app/services/contact_service.py:113-126 | a miss sends exactly one request; success is cached for 3600 s under the key and returned; an ApiException gives `[]` and no write |
| PageCache.ServeTouchesOnlyItsKey | app/services/contact_service.py:105-126 | a page query writes no key but its own |
| PageCache.RepeatedQueryIsHit | app/services/contact_service.py:105-122 | two identical queries within the entry's lifetime: one backend request in all, the same data both times |
| PageCache.OtherPageStillMisses | app/services/contact_service.py:107 | caching one page never turns a different `(page, page_size)` into a hit |
| ContactService.FindByEmail | app/services/contact_service.py:38-60 | the first result of the EQ-email search; no result and a search ApiException both give "not found" |
| ContactService.CreatePayload | app/services/contact_service.py:62-71 | exactly email, firstname, lastname, phone; each copied or null |
| ContactService.UpdatePayload | app/services/contact_service.py:83-92 | succeeds iff all four fields are given, and then copies them; otherwise KeyError naming the first missing field in the order email, firstname, lastname, phone |
| ContactService.ChooseWrite | app/services/contact_service.py:22-36 | missing email: KeyError; no contact found: a create with `CreatePayload`; contact found: an update of its id with `UpdatePayload`, or that payload's KeyError |
| ContactService.CreateOrUpdateContact | app/services/contact_service.py:20-36 | missing email: KeyError; not found: the create is sent; found: the update under the found id is sent, or the update payload's KeyError; a write's ApiException is re-raised |
| ContactService.UpdateIffFound | app/services/contact_service.py:24-36 | when email, firstname, lastname and phone are all given (as app/validations/contact_validator.py:17-18 requires), an update under the found contact's id iff the email search found a contact; a create otherwise |
| ContactService.SearchErrorCreates | app/services/contact_service.py:52-60 | a failing search leads to the create path |
| ContactService.GetRecentContacts | app/services/contact_service.py:105-126 | the page query under the `"contacts"` key namespace |
| ContactService.HandleRateLimit | app/services/contact_service.py:128-142 | retry iff status is 429, after the Retry-After value, 1 when absent |
| TicketService.TicketProperties | app/services/support_ticket_service.py:21-29 | exactly the six ticket fields, each copied or null; `contact_id` and `deal_ids` are not copied |
| TicketService.DealIds | app/services/support_ticket_service.py:47-52 | absent: none; a string: a one-element list; a list: itself; null or a number raises TypeError |
| TicketService.BuildAssociations | app/services/support_ticket_service.py:30-65 | the contact association (type 16) first iff `contact_id` is given, then one type-26 association per deal id in input order; nothing else; empty with neither |
| TicketService.CreateTicket | app/services/support_ticket_service.py:19-75 | sends those properties and associations; a create ApiException yields the error dict with its status and body instead of raising |
| TicketService.GetRecentTickets | app/services/support_ticket_service.py:78-99 | the page query under the `"tickets"` key namespace |
| Integration.ParseQuery | app/routes/integration.py:67-70 | defaults page 1, page_size 10, sort_by `"id"`, filter `""`; given values are kept |
| Integration.Sortable | app/routes/integration.py:78-81 | the sort by `x.get(field)` succeeds iff every two keys can be compared: both strings or both numbers; a missing key, null or a list does not compare |
| Integration.SortByField | app/routes/integration.py:78-81 | succeeds iff `Sortable`: fewer than two records, or all keys strings, or all keys numbers; then ordered by the key and a permutation; otherwise unchanged |
| Integration.InsertStep | app/routes/integration.py:78-81 | one insertion step extends the ordered prefix by one record and keeps the same records |
| Integration.SwapDown | app/routes/integration.py:78-81 | exchanges two neighbours, keeping the same records |
| Integration.AdjacentSortedIsSorted | app/routes/integration.py:78-81 | a list ordered between neighbours is ordered between every pair |
| Integration.Filter | app/routes/integration.py:84-89 | keeps only records of the list whose lowercased text contains the lowercased filter, never more records than given |
| Integration.FilterAppend | app/routes/integration.py:84-89 | filtering distributes over concatenation, so kept records keep their relative order |
| Integration.FilterMembers | app/routes/integration.py:84-89 | a record is kept iff it is in the list and its lowercased text contains the lowercased filter |
| Integration.FilterCounts | app/routes/integration.py:84-89 | each matching record is kept as often as it occurs; others are dropped |
| Integration.FilterOfPermutation | app/routes/integration.py:84-89 | filtering permutations gives permutations |
| Integration.FilterKeepsSorted | app/routes/integration.py:78-89 | filtering a sorted list gives a sorted list |
| Integration.EmptyFilterKeepsAll | app/routes/integration.py:84 | an empty filter keeps every record |
| Integration.PostProcess | app/routes/integration.py:77-89 | raises TypeError iff sorting is asked for and the list is not `Sortable` by it; else the kept records as a permutation ordered by the key, or in served order without sorting, every one matching the filter |
| Integration.Catch | app/routes/integration.py:99-101 | a ValueError becomes a 400 answer; every other error escapes the route |
| Integration.GetNewCrmObjects | app/routes/integration.py:64-101 | contacts, deals and tickets are listed in that order with the same page and page size, threading the shared store through all three; a ValueError gives 400, a sort TypeError escapes; each answered list is the sorted and filtered served list |
| Strings.IntToStringInjective | app/services/contact_service.py:107 | distinct integers print as distinct decimal strings |
| Strings.NatToStringInjective | app/services/contact_service.py:107 | distinct naturals have distinct digit strings |
| Strings.AtMostTransitive | app/routes/integration.py:79 | Python's `<=` on strings is transitive |

## Findings

| source | as written | input that shows it | evidently intended | confidence | as-written member | corrected member |
|---|---|---|---|---|---|---|
| app/services/__init__.py:27 | `get_token` returns the bare token string (app/redis/redis_client.py:44), and `get_access_token` unpacks it into `access_token, expires_in`. Any cached valid non-empty token that is not two characters long raises ValueError (an empty token is falsy and leads to a refresh). A two-character one raises TypeError when the clock is compared with a character. | `set_token("abc123", 3600)` at time 0, then `get_access_token()` at time 1000 | the lookup yields `(token, expiration_time)`; the valid token is returned without a refresh | high; not executed. The input is reachable only if a `str(dict)` token record got into the store some other way: `set_token` as written raises first (see "## Left out") | Services.AsWrittenRaisesOnCachedToken | Services.HubSpotClient.GetAccessToken |

The as-written behaviour is `Services.HubSpotClient.GetAccessTokenAsWritten`, with its decision `Services.DecideAsWritten`. The corrected provider `Services.HubSpotClient.GetAccessToken` reads the record through `Cache.RedisClient.LoadToken`. That lookup returns the stored pair and leaves the expiry check to the provider, which keeps all three branches of the source reachable. Its properties are `Services.Decide` and `Services.DecisionAfterStore`.

## Left out

- The Redis connection, SSL and environment configuration (app/redis/redis_client.py:7-15, app/redis/config.py:9-12): network I/O, replaced by the in-memory `entries` map. One `RedisClient` object stands for the one server shared by the provider's client and the services' module-level client.
- Encoding of stored values. The model assumes an encoder that stores the token record as its `str(dict)` text and a page as its JSON text: the record is a structured `TokenDict` and a page a `PageJson(records)` that decodes to the same records. The code as written raises at those writes instead. `set_token` hands a dict to `setex` (app/redis/redis_client.py:36, :19), which current Redis client libraries reject, so `refresh_access_token` raises at app/services/__init__.py:61 before it sets `access_token`. `json.dumps` of the SDK's result objects raises TypeError for any non-empty page (app/services/contact_service.py:120, app/services/support_ticket_service.py:93); only ApiException is caught there, so the error escapes. These failures are not modelled.
- Reading a cached page back with `json.loads`: any stored value other than `PageJson(records)` is taken to fail to decode (a ValueError). A string that is valid JSON but not a page, such as `"5"` or `"{}"`, is returned by `json.loads` in the code. The model does not return it.
- Reading the token back with `eval`: any stored value other than a token record makes `eval` fail (`EvalError`). Strings that `eval` would turn into some other dict are not modelled.
- HubSpot SDK calls and `requests.post`: foreign calls, modelled as function parameters. A 200 reply whose body lacks `access_token` or `expires_in` (a KeyError in the source) is not modelled.
- `time.time()`: an integer clock. One `now` serves each whole operation, so the two clock reads in `get_access_token` see the same time.
- `handle_rate_limit`'s `time.sleep`, its unused `wait_time` and its logging. The `int()` conversion of the Retry-After header is also left out: the header arrives already as a number.
- The `int()` conversion of the `page` and `page_size` query arguments, and its ValueError: `QueryArgs` carries numbers.
- `jsonify`, the final `to_dict()` conversion, Flask routing and `auth_middleware`. The create routes of app/routes/integration.py are left out too: they only forward to the services.
- app/routes/auth.py and app/validations/contact_validator.py: registration, login, JWT and validation through code that is not part of this model.
- app/services/deal_service.py is not part of this model. The route's deal listing is a parameter that takes the shared store, the page, the page size and the clock, and returns its answer and the store it leaves. Whether it caches like the other two listings is not stated.
- The service constructors and the module-level singletons. Concurrency and concurrent refreshes are also left out: the core runs one request at a time.
- JSON objects, booleans and floats as property values: `Json` has null, integers, strings and lists only. A dict-valued sort key would raise like null; a boolean or float key, which Python compares with numbers, is not modelled.
- `str(record)`: abstracted as the record's `text` field.
- Cache.RedisClient.SetCache: a non-positive timeout, which Redis rejects, is excluded by precondition; every caller passes 3600.
- Integration.SortByField: a list-valued sort key is treated as not comparable, so the model raises TypeError where Python compares two lists element by element and may succeed.
- Integration.PostProcess: the same simplification of list-valued sort keys as `SortByField`.
- Integration.Sortable: a list-valued key counts as not comparable, for the same reason.
- Integration.SortByField: stability of `list.sort` is not stated. A failing sort leaves the array unchanged, where Python may leave the list partly reordered; the route raises in either case.
- `lower()` in the filter folds only the ASCII letters A to Z, not the rest of Unicode.
