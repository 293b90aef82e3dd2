# RSS cache and generation-request decisions of the news relay server

This project models the parts of the relay server (`server.js`) that decide
something, rather than just wire HTTP:

- **The time-to-live cache of `GET /get-rss`.** A process-wide map from feed
  URL to `{data, timestamp}`, with a time-to-live of 2 minutes
  (`CacheDurationMs = 2 * 60 * 1000`). `RssCache.Serve` is one request as a
  function of the cache before it. `RssCache.FeedCache` is the cache as an
  object, and its method `Get` updates the map in place, as the handler does
  (`cache.delete`, then `cache.set`). The method is proved to follow `Serve`.
  The clock reading (`Date.now()` at the start of the request) and the result
  of the upstream fetch are parameters. `Get` also returns whether the fetch
  was made, so that "no fetch" can be stated.
- **The checks before the generative-text API call in `POST /summarize` and
  `POST /chat`.** A missing input (`prompt`, or a missing or empty `history`)
  is a 400. Only after that, a missing API key is a 500. Only then is the API
  called.
- **How the answer is read from the API's reply.** The text is
  `candidates[0].content.parts[0].text`, taken only when the whole path exists
  and the text is not empty. Every other outcome is a 500 carrying the error
  message: a non-ok status, an unparsable body, a missing text, or an
  unreachable API.

Modules:

- `Optional`: `Option` and `Result`.
- `Http`: responses, `IsOk` (the Fetch API's `response.ok`) and the truthiness of string inputs.
- `Decimal`: the numeral that a template literal prints for a status code, and reading it back.
- `RssCache`: the cache.
- `Gemini`: the two generation handlers.

## Model

| member | source | states |
|---|---|---|
| `RssCache.Serve` | server.js:27-59 | The upstream fetch is made exactly when a url is given and no fresh entry exists for it. Every other key keeps its entry, or its absence. The requested key is never left holding an expired entry. The response is 200 exactly when the entry was served from the cache or the fetch succeeded. |
| `RssCache.FeedCache.Get` | server.js:27-59 | The in-place handler: its response, the new map and whether it fetched are exactly those of `Serve` on the old map. |
| `RssCache.FeedCache.constructor` | server.js:7 | The cache starts empty. |
| `RssCache.FailureMessage` | server.js:47 | For a non-ok status, the message is `HTTP error! status: ` followed by digits, and reading those digits back gives the status. For a thrown error, the message is that error's own message. |
| `RssCache.MissingUrlRejected` | server.js:28-29 | A missing or empty url gets a 400 `Thiếu tham số url`. Nothing is fetched and the cache is unchanged. |
| `RssCache.FreshEntryServed` | server.js:32-37 | An entry younger than the time-to-live (strict `<`) is sent as XML. Nothing is fetched, whatever upstream would do, and the cache is unchanged. |
| `RssCache.ExpiredEntryNotServed` | server.js:34-50 | An entry whose age is at least the time-to-live is not served and the fetch is made. Afterwards the key holds the newly fetched body, stamped with the request's clock reading, or nothing. |
| `RssCache.SuccessStored` | server.js:44-53 | A successful fetch stores `{text, now}` under the url. `now` is the reading taken before the fetch. The new entry overwrites any old one, the other keys are unchanged, and the body is sent as XML. |
| `RssCache.FailureStoresNothing` | server.js:44-57 | A non-ok status or a thrown error gets a 500 with body `Không thể lấy RSS feed: <message>`. The map is the old map with the url removed: nothing is added or refreshed, and an evicted expired entry stays evicted. |
| `RssCache.HttpErrorNamesStatus` | server.js:47 | The 500 body for an upstream HTTP error ends with the status as digits, and reading those digits gives back the status. |
| `RssCache.EntryServesWhileFresh` | server.js:32-37 | While every request is younger than the time-to-live relative to an entry's timestamp, every request for that key is served from that entry, with no fetch. |
| `RssCache.NoRefetchWithinTtl` | server.js:31-53 | After a successful fetch for a url, a later request for the same url within the time-to-live gets the same body from the cache, with no second fetch. This assumes the clock does not run backwards in between. |
| `RssCache.RefetchAfterTtl` | server.js:34-50 | Once the time-to-live has passed since a successful fetch, the next request for the url fetches again. If that fetch succeeds, the entry's timestamp becomes the new request's clock reading. |
| `Decimal.NatToString` | server.js:47 | The printed status is a non-empty string of digits. It starts with `0` only for 0. |
| `Decimal.NatToStringRoundTrip` | server.js:47 | Reading the printed numeral back gives the number. |
| `Decimal.NatToStringInjective` | server.js:137 | Two statuses print the same only when they are equal. |
| `Gemini.CandidateText` | server.js:90-94 | The text is produced exactly when `candidates`, its first element, `content`, `parts`, its first element and a non-empty `text` all exist. The result is then that text. |
| `Gemini.Gate` | server.js:66-67 | The call goes ahead exactly when the input is present and the key is truthy. A missing input is a 400 before the key is looked at. A missing key is then a 500. |
| `Gemini.SummarizeCall` | server.js:80-94 | The call succeeds exactly when the reply carries an answer, and then it yields that answer. A non-ok status fails with `Lỗi từ Gemini`, without the body being read. |
| `Gemini.ChatCall` | server.js:127-148 | The call succeeds exactly when the reply carries an answer, and then it yields that answer. For a non-ok status with a parsable body, the message names the status. |
| `Gemini.Summarize` | server.js:64-99 | The API is called exactly when `prompt` and the key are truthy. A missing prompt is a 400 even without a key. A missing key is a 500 with no call. A 200 `{summary}` is sent exactly when the reply carries an answer. Every other outcome is a 500 `Lỗi khi tóm tắt: <message>`. |
| `Gemini.Chat` | server.js:104-153 | The API is called exactly when `history` is non-empty and the key is truthy. A missing or empty history is a 400 even without a key. A missing key is a 500 with no call. A 200 `{answer}` is sent exactly when the reply carries an answer. Every other outcome is a 500 `Lỗi khi chat: <message>`. |
| `Gemini.AnswerNeverEmpty` | server.js:90-91 | A 200 from `/summarize` never carries an empty `summary`, and a 200 from `/chat` never carries an empty `answer`. |
| `Gemini.ChatErrorNamesStatus` | server.js:134-138 | The `/chat` 500 body for a non-ok status with a parsable error body ends with the status as digits, and reading them gives back the status. |
| `Gemini.SummarizeIgnoresErrorBody` | server.js:87 | On a non-ok status, `/summarize` answers the same whatever the body is. `/chat` reports the parse error of an unparsable error body. |

## Left out

- Express setup, CORS, static files and `app.listen` (server.js:11-17, 157-159) are framework plumbing.
- The HTTP calls are not modelled. Their results are parameters: `FetchOutcome` for the feed, `ApiReply` for the generation API. `Failed` stands for both `fetch` throwing and `response.text()` throwing.
- The construction of the generation request is not modelled: the URL with the key, the payload, the system instructions and the search tool (server.js:71-78, 113-125). It is constant data handed to a foreign API.
- `Date.now()` and `process.env` are not read. The clock reading and the API key are parameters.
- Console logging is left out.
- Requests are modelled as atomic steps. Two concurrent handlers racing on the same key, with both fetching, is a concurrency behaviour that is not modelled.
- `url` is only checked for being present and non-empty, as the handler does (server.js:29). Nothing checks that it is an absolute URL.
- Inputs are strings or absent. A query or body field with another JSON type (an array `url`, a numeric `prompt`, a string `history`) is not modelled. Neither is a `null` JSON reply, on which reading `result.candidates` would throw.
- The content of the chat history is not modelled, because the handler passes it on without reading it.
- Express's exact `Content-Type` strings are not modelled. `Body.Text`, `Body.Xml` and `Body.JsonField` stand for `res.send(string)`, `res.type('application/xml')` and `res.json`.
