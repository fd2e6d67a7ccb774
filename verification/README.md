# DramaBox proxy: token generator, catalog client and route logic in Dafny

This project models the core of a small Node.js proxy in front of the DramaBox
drama-streaming API. The proxy has three parts.

- **The token generator** (`lib/token-generator.js`) holds one cache slot: a token and
  its expiry in milliseconds. It also holds a device id, the hex of 16 random bytes
  fixed at construction. `generateToken` climbs a ladder:
  - **Cached**: a cached token that is still in date is served as it is.
  - **Live**: otherwise the generator signs a request to the auth endpoint. It signs
    the parameters sorted by name as `name=value` pairs joined by `&`, with a secret
    appended and the result hashed with MD5. A truthy `data.data.token` in the
    response is cached for an hour.
  - **Fallback**: failing that, a JWT-like token is built from the device id and the
    second, and cached for half an hour.
  - **Emergency**: if anything throws on the way, an `emergency_<seconds>_<64 hex>`
    token is returned and never cached.

  `refreshToken` empties the slot and climbs again. `getTokenInfo` is a snapshot of
  the slot.
- **The catalog client** (`lib/api-client.js`):
  - `makeRequest` asks the generator for a token again on every attempt; while the
    cached token is in date that is the same token. It retries up to three times
    with a 1000 ms pause, then rethrows the last error.
  - `getLatestDramas` and `searchDramas` build fixed bodies on top of `makeRequest`,
    and read the response with optional chaining and a `|| []` default.
  - `getStreamLink` makes a single attempt under its own client id.
- **The three API routes** (`server.js`): latest, search and stream.
  - Each fetches a token and POSTs directly, with no retry and no timeout.
  - Each reads the response with plain property chains, so a broken chain throws
    and the catch-all answers 500.
  - The search route refuses a missing keyword with 400.
  - The stream route answers 404 when there are no chapters. Otherwise it returns
    the first CDN URL of the first chapter and the chapter list projected to
    `{index, title, duration}`.

The model is functional. The generator's state is an immutable `TokenState`, and
each operation returns the token it hands out together with the next state. These
are inputs:
- everything the generator reads from its environment (`MintEnv`): the clock before
  and after the auth call, the `Math.random` draws, the 32 emergency bytes, the
  auth call's transport outcome, and where, if anywhere, an exception is raised;
- the network outcome of every POST (`Transport`).

MD5, SHA-256 and base64url are uninterpreted functions (`Primitives`). Retry is
recursion over a sequence of attempts. The client and the routes take the token
source as a parameter (`Mint`), and `TokenGenerator.Generator` instantiates it
with `generateToken`.

| file | module | contents |
|---|---|---|
| `wrappers.dfy` | `Wrappers` | `Option`, `Result` |
| `text.dfy` | `Text` | decimal and hex text, JavaScript `parseInt`, `join`/`split` |
| `json.dfy` | `JsonValues` | JSON values, truthiness, property reads, plain and optional chaining, `JSON.stringify` |
| `upstream.dfy` | `Upstream` | endpoints, client ids, the header template, request bodies, the axios success rule |
| `signature.dfy` | `Signature` | the sorted sign string |
| `token.dfy` | `TokenGenerator` | the token generator |
| `api_client.dfy` | `ApiClient` | `DramaBoxAPI` |
| `server.dfy` | `Server` | the decision logic of the three routes |

The route handlers read the response with plain property chains, so it matters
which step of a chain meets a missing member:
- Every route answers 500 when the POST rejects (a non-2xx status, a timeout or a
  connection failure).
- Every route answers 500 when a step before the last reads a property of null or
  undefined. For example, a latest-list body whose `data` has no `newTheaterList`
  gives 500 (`Server.MissingTheaterListFails`).
- A missing last member does not throw. A search body whose non-null `data` has no
  `suggestList` gives 200, and `res.json(undefined)` sends an empty body
  (`Server.MissingSuggestListIsEmpty`). The same holds for `records`.
- The stream route also answers 500 for a chapter list that has a positive
  `length` but is not an array, or whose first chapter is null or has no
  `cdnList`, or that holds a null chapter anywhere. It answers 404 when the list is
  falsy or its `length` is not positive (`Server.StreamReply`).

## Model

| member | source | states |
|---|---|---|
| `TokenGenerator.GenerateDeviceId` | lib/token-generator.js:11-15 | the device id is 32 hex digits that decode back to the 16 random bytes |
| `TokenGenerator.NewTokenGenerator` | lib/token-generator.js:5-9 | a new generator has both cache fields empty, a valid state, and a device id that decodes to its bytes |
| `TokenGenerator.GenerateRandomString` | lib/token-generator.js:17-24 | the nonce has the requested length; character `i` is the alphabet entry at `floor(draw_i * 62)` |
| `TokenGenerator.Seconds` | lib/token-generator.js:26-28 | the timestamp is the floor of the milliseconds over 1000 |
| `Signature.SortByKey` | lib/token-generator.js:32-33 | sorting keeps exactly the given parameters |
| `Signature.SortSorted` | lib/token-generator.js:32-33 | parameters with distinct names come out in ascending name order |
| `Signature.SortedUnique` | lib/token-generator.js:32-33 | two name-sorted lists with the same parameters are equal |
| `Signature.InsertionOrderIrrelevant` | lib/token-generator.js:30-38 | the sign string does not depend on the order in which the parameters were inserted |
| `Signature.SignStringOfSorted` | lib/token-generator.js:30-38 | a list already sorted by name is signed as its pairs joined by `&`, followed by the secret |
| `TokenGenerator.AuthParamsSorted` | lib/token-generator.js:56-63 | the six auth parameters permute into ascending name order |
| `TokenGenerator.AuthSignString` | lib/token-generator.js:30-63 | the auth sign string is `app_version`, `device_id`, `nonce`, `platform`, `timestamp`, `version` pairs in that order, joined by `&`, then `dramabox_secret_key` |
| `TokenGenerator.AuthRequestTarget` | lib/token-generator.js:66-97 | the auth call posts to `https://sapi.dramaboxdb.com/drama-box/auth/token` with a 10000 ms timeout |
| `TokenGenerator.AuthRequestHeaders` | lib/token-generator.js:68-82 | the auth headers carry `cid` `DRA1000042` and the generator's device id |
| `TokenGenerator.AuthRequestBody` | lib/token-generator.js:84-91 | the auth body's `signature` is the MD5 hex of the sign string over the six parameters with the default secret; `deviceId`, `timestamp` and `nonce` are the signed values |
| `TokenGenerator.Nonce` | lib/token-generator.js:54 | the nonce is 16 characters |
| `TokenGenerator.LiveToken` | lib/token-generator.js:99-100 | a live token exists iff the auth call resolved and `data`, `data.data` and `data.data.token` are all truthy, and it is then exactly `data.data.token` |
| `TokenGenerator.FallbackTokenSegments` | lib/token-generator.js:135-156 | the fallback token splits on `.` into exactly the encoded header, the encoded claims and the first 43 of the 64 SHA-256 hex digits |
| `TokenGenerator.FallbackClaimsExpiry` | lib/token-generator.js:146-151 | the claims carry the device id, `iat` as the timestamp and `exp` as `iat + 3600` |
| `TokenGenerator.FallbackTokenNonEmpty` | lib/token-generator.js:155 | the fallback token is never empty, so caching it makes the slot truthy |
| `TokenGenerator.EmergencyToken` | lib/token-generator.js:158-163 | the emergency token starts with `emergency_` and ends with `_` plus 64 hex digits |
| `TokenGenerator.EmergencyRoundTrip` | lib/token-generator.js:158-163 | the emergency token gives back its issue second and its 32 random bytes |
| `TokenGenerator.Settle` | lib/token-generator.js:93-132 | after the auth call: live iff the response carries a truthy token, cached for 3600000 ms; otherwise fallback cached for 1800000 ms unless building it throws; emergency leaves the state alone; the device id never changes and validity is kept |
| `TokenGenerator.GenerateToken` | lib/token-generator.js:42-133 | cache hit iff the slot is truthy, its expiry is set and non-zero and now is before it, serving the slot unchanged; an auth request is sent exactly on a miss that does not throw first; the device id is kept and validity is preserved |
| `TokenGenerator.CachedTokenServed` | lib/token-generator.js:45-50 | a filled slot is served, with its device id and no state change, exactly while the clock is before the expiry |
| `TokenGenerator.LiveTokenIsCached` | lib/token-generator.js:99-107 | a truthy live token is returned and cached with expiry `settled + 3600000` |
| `TokenGenerator.AuthFailureFallsBack` | lib/token-generator.js:109-121 | a failed or token-less auth call caches the fallback token for the current second, with expiry `settled + 1800000` |
| `TokenGenerator.FailingAuthStillMints` | lib/token-generator.js:93-132 | a rejected auth call never stops `generateToken`: it yields a fallback or an emergency token |
| `TokenGenerator.EmergencyNotCached` | lib/token-generator.js:123-132 | the emergency path returns the emergency token and leaves both cache fields as they were |
| `TokenGenerator.CacheServesUntilExpiry` | lib/token-generator.js:45-121 | a live or fallback token just minted is served again, unchanged, exactly until its expiry |
| `TokenGenerator.RefreshToken` | lib/token-generator.js:166-170 | a refresh never takes the cache branch, keeps the device id, and if it ends in the emergency tier leaves the slot empty |
| `TokenGenerator.RefreshSkipsCache` | lib/token-generator.js:166-170 | after a refresh that ended in the emergency tier, the next `generateToken` cannot hit the cache either |
| `TokenGenerator.GetTokenInfo` | lib/token-generator.js:173-180 | `hasToken` is the slot's truthiness; with a truthy expiry, `isExpired` is `now >= expiry` and the expiry is reported; without one (null or 0), expired and no expiry; has-token and not-expired together iff the cache would be hit |
| `Text.HexRoundTrip` | lib/token-generator.js:14 | hex text of bytes decodes back to the bytes |
| `Text.ParseIntOfDecimalText` | server.js:45 | `parseInt` of an integer's decimal text, followed by nothing or by a character that is neither a digit nor `x`/`X`, is that integer |
| `Upstream.Post` | lib/api-client.js:37-42 | a POST resolves iff a 2xx response arrived, and then with its body; a timeout rejects |
| `Upstream.HeaderTemplateFields` | lib/api-client.js:11-29 | the headers carry `tn: Bearer <token>`, the token's device id, and the given client id |
| `Upstream.LatestBodyFields` | lib/api-client.js:58-64 | the latest body has the given `pageNo`, `newChannelStyle`, `isNeedRank` and `index` 1, and `channelId` 43 |
| `Upstream.SearchBodyFields` | lib/api-client.js:71 | the search body is exactly `{keyword}`, unmodified |
| `Upstream.StreamBodyCoercesEpisode` | lib/api-client.js:77-90 | the stream body's `index` is the episode's decimal value and `bookId` is verbatim |
| `Upstream.StreamBodyNaNEpisode` | lib/api-client.js:80 | an episode `parseInt` rejects is sent as `null`, the serialisation of NaN |
| `ApiClient.Retry` | lib/api-client.js:32-55 | the retry stops at the first success or after the fourth attempt; every earlier attempt failed; a failure rethrows the last attempt's error |
| `ApiClient.MakeRequest` | lib/api-client.js:32-55 | one to four attempts, each with a request built from its own token, one 1000 ms pause fewer than attempts, the result of the last attempt, four attempts on failure; the generator is left in the state of the last attempt's mint |
| `ApiClient.RetryOutcome` | lib/api-client.js:37-50 | when the first k attempts fail and the next succeeds, that response is returned after exactly k pauses |
| `ApiClient.ResolvesIffSomeAttemptSucceeds` | lib/api-client.js:43-53 | `makeRequest` resolves iff one of the four attempts would succeed |
| `ApiClient.AttemptsMintInTurn` | lib/api-client.js:34 | attempt i mints its token from the state attempt i-1 left behind |
| `ApiClient.AttemptsCarryMintedTokens` | lib/api-client.js:11-35 | every attempt asks the token source again and sends the token it got as `Bearer`, the source's device id and the catalog client id to the endpoint under the base URL |
| `ApiClient.ChainKeepsDevice` | lib/api-client.js:12-23 | tokens minted one after another all carry the device id fixed at construction |
| `ApiClient.GeneratorAttempt` | lib/api-client.js:12 | with the real generator, attempt i is `generateToken` on the state attempt i-1 left |
| `ApiClient.GeneratorAttemptsCarryTokens` | lib/api-client.js:11-35 | with the real generator, every attempt sends the token `generateToken` returned for it as `Bearer`, the generator's device id and the catalog client id; the generator serves every well-formed attempt (`GeneratorCanMint`) and keeps its device id (`GeneratorKeepsDevice`) |
| `ApiClient.CatalogRequestFields` | lib/api-client.js:11-40 | a catalog request uses the catalog client id and a 15-second timeout |
| `ApiClient.Envelope` | lib/api-client.js:67 | reading the envelope throws iff the body is null; otherwise the result is truthy |
| `ApiClient.EnvelopeDefaults` | lib/api-client.js:67 | a truthy value at the end of the optional chain is returned as it is; anything else gives `[]` |
| `ApiClient.GetLatestDramas` | lib/api-client.js:57-68 | the dispatch is `makeRequest` on the latest endpoint with the latest body; every attempt posts the latest body with the page (default 1); the call rejects iff the POST failed or the body is null; a resolved POST gives `Envelope` of its body on `newTheaterList.records` |
| `ApiClient.LatestDefaultsToEmpty` | lib/api-client.js:66-67 | a missing or falsy `data`, `newTheaterList` or `records` gives `[]`; a truthy `records` is returned |
| `ApiClient.SearchDramas` | lib/api-client.js:70-74 | the dispatch is `makeRequest` on the search endpoint with `{keyword}`; every attempt posts `{keyword}`; the call rejects iff the POST failed or the body is null; a resolved POST gives `Envelope` of its body on `suggestList` |
| `ApiClient.SearchDefaultsToEmpty` | lib/api-client.js:72-73 | a missing or falsy `suggestList` gives `[]`; a truthy `suggestList` is returned |
| `ApiClient.StreamRequestFields` | lib/api-client.js:76-113 | the stream request uses client id `DRA1000000`, the parsed episode, the verbatim book id and a 15-second timeout |
| `ApiClient.GetStreamLink` | lib/api-client.js:76-116 | exactly one token and one request; a failed POST rejects with its error, with no retry |
| `ApiClient.StreamDefaultsToEmpty` | lib/api-client.js:113-115 | a missing or falsy `chapterList` gives `[]` |
| `Server.PageNumber` | server.js:45 | a non-zero parsed page is kept; a page `parseInt` rejects (NaN) or parses to 0 gives 1 |
| `Server.PageDefaultsToOne` | server.js:45 | an absent page gives page 1 |
| `Server.PageOfDecimal` | server.js:45 | a decimal page text is that page, except that "0" gives page 1 |
| `Server.RouteRequestHeaders` | server.js:24-40 | a route's request carries the token as `Bearer`, its device id and the route's client id |
| `Server.Respond` | server.js:50-55 | 200 iff the POST resolved and the plain chain does not break early, with the chain's value (possibly undefined) as the body; otherwise 500 with the route's message |
| `Server.LatestRoute` | server.js:19-56 | mints one token and posts the latest body with the parsed page, client id `DRA1000042` and no timeout; replies from `data.newTheaterList.records` |
| `Server.SearchRoute` | server.js:58-93 | 400 iff the keyword is missing or empty, and then nothing is minted or sent and the state is unchanged; otherwise posts `{keyword}` and replies from `data.suggestList` |
| `Server.StreamRoute` | server.js:95-153 | mints one token and posts the stream body with client id `DRA1000000`; a failed POST is 500; otherwise the reply is decided on `data.chapterList` |
| `Server.StreamOutcome` | server.js:134-152 | a broken `data.chapterList` chain is 500; otherwise the chapter-list decision applies |
| `Server.StreamReply` | server.js:135-152 | 404 iff the chapter list is falsy or its length is not positive; 200 iff it is a non-empty array with no null chapter whose first chapter has a `cdnList`; every other case is 500 |
| `Server.Project` | server.js:140-144 | the projection is defined iff no chapter is null; it keeps length and order and projects each chapter |
| `Server.ProjectionKeepsFields` | server.js:140-144 | a projected chapter shows the chapter's own `index`, `title` and `duration` |
| `Server.ProjectionOnlyFields` | server.js:140-144 | a projected chapter has no other member |
| `Server.StreamChapterList` | server.js:137-145 | for an answerable list, the reply lists every chapter, in order, projected |
| `Server.StreamUrlIsFirstCdn` | server.js:139 | for an answerable list, the reply's `streamUrl` is `chapterList[0].cdnList[0]`, present exactly when that entry is defined |
| `Server.NullChapterFails` | server.js:139-152 | a null chapter anywhere in a non-empty list makes the route answer 500 |
| `Server.NoChaptersNotFound` | server.js:137-148 | a missing, falsy or empty chapter list gives 404 `Episode not found` |
| `Server.MissingTheaterListFails` | server.js:51-55 | a body without `data.newTheaterList` gives 500 |
| `Server.MissingSuggestListIsEmpty` | server.js:88 | a body whose non-null `data` has no `suggestList` gives 200 with no body; a missing or null `data` throws instead (500) |
| `Server.ServerStricterThanClient` | server.js:50-55 | against `getLatestDramas`/`searchDramas` on the same body: a truthy 200 value is what the client returns; a falsy 200 or a 500 from a broken chain is the client's `[]`; a null body fails in both |

## Left out

- Wall clock, `Math.random`, `crypto.randomBytes`, and the network: they are inputs of each call, not effects.
- MD5, SHA-256 and base64url are uninterpreted. Only the lengths and alphabets their outputs are known to have (`TokenGenerator.WellBehaved`) are assumed, where a lemma needs them.
- Concurrency: the generator is a shared singleton, and overlapping `token()` calls race on its cache slot. The model runs one call at a time.
- Console logging in every catch block.
- `get-token.js` passes `token()` straight through, so the model calls the generator directly.
- The Express and axios framework layers: routing, CORS, static files, `app.listen`, and JSON body parsing. They appear only as a request's parameters and a POST's `Transport` outcome.
- `public/script.js`: browser rendering, not part of the proxy's logic.
- `getTokenInfo` returns the expiry as an ISO date string; the model keeps it in milliseconds, because date formatting is not modelled.
- JSON numbers are unbounded integers. Floating point, NaN arithmetic and `parseInt` of values beyond 2^53 are not modelled. NaN appears only as `parseInt`'s failure and its serialisation as `null`.
- Strings are sequences of Unicode scalar values. JavaScript compares UTF-16 code units, which orders characters above U+FFFF differently; every name the signature sorts is ASCII.
- `qs` can parse repeated query parameters into arrays. The model treats `page` and `q` as absent or a single string.
- `Server.StreamReply`: a `length` that is neither a number nor a boolean is taken as not positive. JavaScript would coerce a numeric string such as `"3"` and compare it as a number.
- `TokenGenerator.RefreshToken`: the contract does not restate each ladder rung after the reset; `TokenGenerator.RefreshSkipsCache` and `TokenGenerator.GenerateToken` cover them.
- The clock inside the ladder is read twice, before and after the auth call (`now` and `settled`). The source reads `Date.now()` a few more times within each synchronous stretch; the model takes one reading per stretch and ignores the microseconds between them.
- Only three points where an exception can be raised are modelled (`Fault`): before the auth call, while building the fallback token, or nowhere. An exception inside the emergency builder would reject `generateToken`, which `crypto.randomBytes` does not do in practice.
