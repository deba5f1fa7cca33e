# ngx-api-manager, modelled in Dafny

`ngx-api-manager` is an Angular façade over `HttpClient`. Callers describe a
request by naming an endpoint configuration, a route (`subject` and `just`)
and options. The service resolves these into a URL, a query string or
parameter container carrying the auth token, a timeout and cache flags. It
issues the matching HTTP verb and reports loading and classified errors on
two streams of its own. Two cache stores come with it, one in memory and one
over `localStorage`, plus a token service over the `'token'` storage key.

The model is split into these modules:

- `JsValues`: the JavaScript behaviour the code relies on.
  - Truthiness.
  - Template rendering of `undefined` and `null`.
  - `String(n)` for integers.
  - `toLocaleLowerCase` on ASCII.
- `AngularHttp`: the immutable `HttpParams` container.
  - `set`, `delete` and `toString` over an insertion-ordered list of pairs.
  - The codec's key and value encoder is a parameter.
- `CacheData`: the cache record (`data`, `lastUpdate`, `howLongIsItFresh`) and the `isFresh` rule.
- `MemoryStore`: `MemoryStorage`, a class whose map field holds the live entries.
- `BrowserStorage`: the browser's `localStorage` as a class over a string map.
- `LocalStore`: `LocalStorage` over a `WebStorage`.
  - `JSON.stringify` and `JSON.parse` are constant function fields of the store.
- `Tokens`: `TokenService`, which keeps the cached token in a field in front of the stored one.
- `ErrorsStream`: `ErrorsStreamService`.
  - The status classification.
  - The error classes, including `TimeoutError` with status 408.
  - The published events, a sequence field that `emitError` appends to.
- `Api`: `ApiService`'s core.
  - `getConfig`.
  - The option merging and query building of `request2`, with its `+` escaping.
  - `doRequest` dispatch.
  - The unfinished cache path: `checkConditionsAndGetCache` with `getKey`.
  - The `promise()` call and its signals.

The current time is an explicit `now` argument wherever the source calls `new Date()`.

The auth token is an argument of `request2`. The source reads it twice, at
`src/api.service.ts:114` and again inside `encodeURL`, with nothing writing it
in between.

The timeout race of `promise()` is an argument saying how the race ended.

The design notes on caching at `src/api.service.ts:33-59` ask for a global `cache` flag in the configuration and a per-request `forcedRefresh` override that forces a real request. The code differs from those notes. It also never uses the `baseUrl` field that `apiConfig` declares (`src/typings.ts:31`), although the header comment at `src/api.service.ts:11-12` says the configuration names the domain the API works with. The model follows the code:

- The URL comes from `config[subject][just]`, or from the explicit `url`, with no base URL prefixed.
- A cache answer does not depend on the `cache` flag.
- It requires an explicit `forcedRefresh: false`, a lower-case `'get'` method and a fresh entry.

## Model

| member | source | states |
|---|---|---|
| JsValues.DecimalValueOfNatToString | src/api.service.ts:138 | `String(n)` of a non-negative integer is all digits and reads back as `n` |
| JsValues.NatToStringInjective | src/errors-stream.service.ts:20-118 | distinct status codes render to distinct message keys |
| JsValues.ToLower | src/api.service.ts:131 | lower-casing keeps the length and leaves no upper-case letter. Each upper-case letter becomes its lower-case partner, and every other character is unchanged |
| JsValues.ToLowerMatches | src/api.service.ts:131 | a text lower-cases to a lower-case word exactly when it spells the word letter by letter, each letter as written or in upper case |
| JsValues.LowerGetSpellings | src/api.service.ts:131 | the methods taking the GET branch are exactly the eight case variants of `get` |
| AngularHttp.Set | src/api.service.ts:135-138 | after `set(k, v)` the key reads `v`; every other key reads as before; at most one pair is added |
| AngularHttp.Delete | src/api.service.ts:275 | after `delete(k)` the key is absent; every other key reads as before |
| AngularHttp.Serialize | src/api.service.ts:276-278 | `toString()` is empty exactly when the container is empty |
| AngularHttp.DeleteAllLookup | src/api.service.ts:275 | deleting names one after another removes exactly those names and keeps all others |
| CacheData.IsFresh | src/memoryStorage.ts:32-37 | less time than `howLongIsItFresh` has passed since `lastUpdate`. `LocalStorage` uses the same rule, at src/localStorage.ts:33-38 |
| CacheData.StaleStaysStale | src/memoryStorage.ts:32-37 | once stale, an entry stays stale at every later time |
| MemoryStore.MemoryStorage.Get | src/memoryStorage.ts:12-21 | absent gives null; fresh gives the entry unchanged; stale gives null and the key is cleared, nothing else changes |
| MemoryStore.MemoryStorage.Set | src/memoryStorage.ts:23-30 | a fresh entry is stored under the key and returned. A stale one gives null, and `null` data throws; in both cases the store is unchanged |
| MemoryStore.SetThenGet | src/memoryStorage.ts:12-30 | a fresh entry written is what a read of the same key at the same instant returns |
| MemoryStore.ReadAgainstDeadline | src/memoryStorage.ts:12-21 | a stored entry is returned by every read before `lastUpdate + howLongIsItFresh`, and evicted by any read from that instant on |
| MemoryStore.WriteThenReadLater | src/memoryStorage.ts:12-37 | an entry accepted at one time and read later comes back exactly when the read is before its deadline; otherwise the read removes it |
| LocalStore.LocalStorage.ParseWithExpiration | src/localStorage.ts:40-49 | empty text gives null; the parse throws exactly when the text is not JSON or is JSON `null`; an entry is returned exactly for a fresh record |
| LocalStore.LocalStorage.StringifyWithExpiration | src/localStorage.ts:51-59 | text is produced exactly for a present, fresh entry, and it is that entry's JSON |
| LocalStore.LocalStorage.ParseInvertsStringify | src/localStorage.ts:40-59 | when parsing inverts serialising, a fresh entry survives the trip through its text |
| LocalStore.LocalStorage.Get | src/localStorage.ts:12-22 | no or empty record gives null, unchanged; otherwise the parsed result, and the record is removed exactly when that result is null |
| LocalStore.LocalStorage.Set | src/localStorage.ts:24-31 | a fresh entry is written as its text and returned; anything else gives null and writes nothing |
| LocalStore.SetThenGet | src/localStorage.ts:12-31 | a fresh write followed by a read of the same key returns the entry written |
| Tokens.Stored | src/token.service.ts:14 | `getItem('token') \|\| null`: the stored text, unless it is absent or empty |
| Tokens.TokenService.Get | src/token.service.ts:12-18 | returns the cached token; an empty cache is filled from storage first |
| Tokens.TokenService.Set | src/token.service.ts:20-24 | the value is stored under `'token'`, cached and returned |
| Tokens.TokenService.Remove | src/token.service.ts:26-29 | the stored token is deleted and the cache emptied |
| Tokens.SetThenGet | src/token.service.ts:12-24 | a read after `set(v)` returns `v` |
| Tokens.RemoveThenGet | src/token.service.ts:12-29 | a read after `remove()` returns null |
| Tokens.RemoveRewriteGet | src/token.service.ts:12-29 | after `remove()`, the next stored text decides the next read; an empty text reads as null |
| ErrorsStream.NewError | src/errors-stream.service.ts:131-136 | an error object carries its class name, the message and the wrapped failure |
| ErrorsStream.NewTimeoutError | src/errors-stream.service.ts:169-176 | a `TimeoutError` carries its message and status 408 |
| ErrorsStream.Classify | src/errors-stream.service.ts:19-122 | status 0 is disconnected; the listed 4xx are client errors; the listed 5xx are server errors; any other status, or none, is unusual (each an if-and-only-if) |
| ErrorsStream.MessageKey | src/errors-stream.service.ts:19-121 | the message is read under the decimal status code, or under `'unusual'` for unusual errors |
| ErrorsStream.ClientCodesAreRanges | src/errors-stream.service.ts:23-80 | the client statuses are 400-417, 422-426, 428, 429, 431, 444, 449 and 451 |
| ErrorsStream.ServerCodesAreRanges | src/errors-stream.service.ts:81-118 | the server statuses are 500-511 and 520-526 |
| ErrorsStream.Classified | src/errors-stream.service.ts:19-121 | the emitted object wraps the failure itself, is tagged with its status class and carries the message stored under its key |
| ErrorsStream.DisconnectedClassification | src/errors-stream.service.ts:21-22 | status 0 emits a `DisconnectedError` with `enMsgs['0']` |
| ErrorsStream.ClientClassification | src/errors-stream.service.ts:23-80 | a client status emits a `ClientError` with the message stored under that code |
| ErrorsStream.ServerClassification | src/errors-stream.service.ts:81-118 | a server status emits a `ServerError` with the message stored under that code |
| ErrorsStream.UnusualClassification | src/errors-stream.service.ts:121 | any other status emits an `UnusualError` with `enMsgs['unusual']` |
| ErrorsStream.DistinctCodesDistinctMessages | src/errors-stream.service.ts:20-121 | two different classified statuses never read the same message key |
| ErrorsStream.TimeoutClassification | src/errors-stream.service.ts:169-176 | a `TimeoutError` is reported as a `ClientError` with `enMsgs['408']` |
| ErrorsStream.ErrorsStreamService.EmitError | src/errors-stream.service.ts:15-17 | exactly one event, the error with its call site, is appended to the stream |
| ErrorsStream.ErrorsStreamService.DefaultProcessing | src/errors-stream.service.ts:19-122 | exactly one event is appended: the classified error, wrapping the failure, at the call site |
| Api.GetConfig | src/api.service.ts:81-84 | the first configuration with the name, or the empty configuration when none has it |
| Api.Located | src/api.service.ts:124-125 | with no `param`: the explicit URL if truthy, else the route. With a truthy `param`: exactly that URL (`undefined` when there is none) followed by `/param` |
| Api.Request2 | src/api.service.ts:111-149 | A missing route, then a missing method, is an error (if and only if). URL: explicit if truthy, else routed, then `/param` if `param` is truthy. timeout: per call if truthy, else the configuration's. cache and forcedRefresh: per call unless undefined. withCredentials comes from the configuration. GET: the encoded URL and no parameters. Otherwise: the URL as located and the token and parameter container. The call is `doRequest` of the result |
| Api.SetEachLookup | src/api.service.ts:138 | setting the items one by one leaves each key with its last value and the others untouched |
| Api.NonGetParamsLookup | src/api.service.ts:133-140 | each key holds its last given value; the token field holds a truthy token unless a parameter overrides it; nothing else is present |
| Api.EncodeUrl | src/api.service.ts:226-237 | the URL is `url?field=token`, then `&encodeURI(key=val)` for each item in order, with every `+` escaped, and no `+` remains |
| Api.ReplacePlus | src/api.service.ts:234 | the result has no `+`, and a text without `+` is unchanged |
| Api.ReplacePlusConcat | src/api.service.ts:234 | escaping `+` works piece by piece |
| Api.PlusBecomesPercent2B | src/api.service.ts:234 | each `+`, wherever it stood, becomes `%2B` |
| Api.EncodedUrlAppends | src/api.service.ts:230-233 | one more parameter appends exactly its own escaped pair at the end |
| Api.TokenComesFirst | src/api.service.ts:229-234 | when URL, field name and token hold no `+`, the URL starts with `url?field=token` |
| Api.DoRequest | src/api.service.ts:154-174 | a call is issued exactly for the five verbs. Its verb is the lower-cased method; URL and options pass through; only post, put and patch carry the body |
| Api.DispatchIgnoresCase | src/api.service.ts:157 | the methods dispatched to a verb are exactly that verb spelled in any mix of cases |
| Api.GetKey | src/api.service.ts:273-279 | the key as written: the base URL and the query left after deleting only the last excluded name |
| Api.GetKeyExcludingAll | src/api.service.ts:273-279 | the key with every excluded name deleted; the bare base URL when nothing remains |
| Api.OneExclusionAgrees | src/api.service.ts:275 | with at most one excluded name, the key as written and the corrected key agree |
| Api.AsWrittenKeepsEarlierExclusions | src/api.service.ts:275 | excluding `a` and `b` from `a=1&b=2` leaves `a=1` in the key as written but not in the corrected key |
| Api.Exclusions | src/api.service.ts:252 | the cache path always excludes exactly one name, the token field |
| Api.CachePathUnaffected | src/api.service.ts:252 | on the cache path the written and corrected keys coincide |
| Api.CacheKey | src/api.service.ts:251-253 | the key starts with the request's URL. With an empty parameter container, as every GET has, it is the URL alone |
| Api.CacheKeyIgnoresToken | src/api.service.ts:251-253 | the parameter part of the key, which only non-GET requests fill, holds every parameter except the token field |
| Api.GetCacheKeysSeparateTokens | src/api.service.ts:229 | two GETs whose tokens differ and contain no `+` get different keys: the token is part of a GET's URL |
| Api.PlusTokenCollides | src/api.service.ts:229-234 | a token `+` and a token `%2B` build the same GET URL, since `+` is escaped after the token is inserted |
| Api.CheckConditionsAndGetCache | src/api.service.ts:246-259 | without `forcedRefresh === false`: null, store untouched. An unknown configuration throws. Otherwise stale entries are evicted for any method, and only a lower-case `'get'` with a fresh entry gets it |
| Api.Promise | src/api.service.ts:197-218 | loading goes on before and off exactly once after, at the request point. A response is returned with no error event. A failure or timeout emits one classified event and is rethrown unchanged; a timeout is `TimeoutError('timeout <t> expired')` |

## Left out

- The `stream()` chain is not modelled; it relies on RxJS operators (`do`, `timeout`, `catch`, `finally`).
- Actual time and the timer race are not modelled. `now` is an argument, and the outcome of `Promise.race` is an argument of `Api.Promise`.
- `HttpClient` and the network: `Api.DoRequest` returns a description of the call it would make.
- `Api.Promise` returns the loading emissions as a list. It does not fix how they interleave with the error stream's events.
- `encodeURI`, the `HttpParams` codec encoder and `JSON.parse` / `JSON.stringify` are function-typed parameters, because they are library code.
- `JsValues.ToLower`: maps only the ASCII letters; locale-dependent case mapping is not modelled.
- Numbers are integers. Non-integer, NaN and infinite values of `timeout`, `param`, `val`, `status` and the cache timestamps `lastUpdate` and `howLongIsItFresh` are not modelled. For example, `howLongIsItFresh: Infinity` is accepted by `LocalStorage.set`. `JSON.stringify` then writes it as `null`, so the next `get` finds the entry stale and removes it.
- `JsValues.IntToString`: renders integers only, not JavaScript's full number formatting.
- `null` options are not modelled, and neither is a `null` `paramsArray`. A GET would throw a `TypeError` at the `for…of` of `encodeURL`; a non-GET skips it at `if (paramsArray)`. An omitted `paramsArray` is the empty one.
- A `subject` named like a top-level configuration field (`name`, `timeout`, ...) is not modelled. Routes are a separate map.
- `MemoryStorage` keeps its entries as properties of the service object itself. Keys that clash with its own members (`get`, `set`, `constructor`) are not modelled.
- `Api.CheckConditionsAndGetCache` reads `this.configs`, which nothing in the visible source assigns. It becomes a map argument from configuration name to configuration. `lookInStorage` with its default `'main'` store is the `MemoryStorage` argument.
- The factory wiring in `index.ts` that installs the `main` and `localStorage` stores is not part of this model.
- `useConfig`, with its `console.error`, is not part of this model. Its effect, setting `useConfig` on the options, is an input of `Api.Request2`.
- A missing `tokenFieldName` is used under the literal key `undefined`. Collisions with a user parameter of that name are not separated.
- `Api.Request2`: headers are always empty, as in the source. `baseUrl` and `prefix` are unused by the code and not modelled.
- The `stack` field of the error classes, and the `cause` of a `TimeoutError` thrown without one, are not modelled.
- `LocalStore.LocalStorage.ParseWithExpiration`: the outcome of `JSON.parse` is abstracted in three ways:
  - a record, fresh or stale, whose timestamps are numbers or coerce to integers (`null`, numeric text, booleans);
  - valid JSON whose timestamps make `isFresh` false because they coerce to NaN;
  - an exception.

  The contents of JSON text are not modelled.
- `Api.Request2`: the source writes `url`, `timeout`, `cache`, `forcedRefresh` and `requestOptions` back into the caller's options object, and the model returns a fresh `ResolvedRequest` instead. So it does not capture an options object reused for a second call. That call would append `/param` again and encode the `?token=` query a second time, because `url` is then truthy.
- `MemoryStore.MemoryStorage`: the source stores the caller's object itself and returns the stored object. Mutating that object afterwards changes the cached entry. The model keeps entries as values, so this aliasing is not captured.

## Findings

| source | as written | input that shows it | evidently intended | confidence | as-written member | corrected member |
|---|---|---|---|---|---|---|
| src/api.service.ts:275 | each excluded name is deleted from the original `params`, so only the last deletion survives | `getKey(u, a=1&b=2, ['a', 'b'])` yields `u?a=1` | every excluded name is removed, yielding `u` | not executed | Api.GetKey | Api.GetKeyExcludingAll |

The cache path always passes exactly one name (`Api.Exclusions`), so the
discrepancy cannot show there (`Api.CachePathUnaffected`).
`Api.CheckConditionsAndGetCache` uses the corrected key.

Excluding the token field (`src/api.service.ts:252`) changes only the keys of
non-GET requests. For a GET, `encodeURL` has already put the token into the
URL, so GETs made with different tokens that contain no `+` are cached under
different keys (`Api.GetCacheKeysSeparateTokens`). A `+` in a token is escaped
to `%2B`, so the tokens `+` and `%2B` share a key (`Api.PlusTokenCollides`).
