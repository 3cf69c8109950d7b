# douyin-radar TikHub proxy — a Dafny model of its handler core

`api/tikhub.js` is an edge handler that proxies four Douyin operations to
the TikHub API: the hot-search list, a keyword video search, a user
profile and a diagnostic sweep. This project models its deterministic
core and proves what the handler promises about it:

- **Parsed upstream bodies** as a `Json` value (`json.dfy`). The value
  carries `undefined`, JavaScript truthiness, `||`, optional-chaining
  reads, `?.[0]`, `filter(Boolean)` and `Object.keys`.
- **`extractHotList`** (`hotlist.dfy`). It is modelled as the source writes
  it. It is also proved equal to an independent "first resolved probe"
  over the ordered candidate paths.
- **The item normalisers** for hot entries, search videos and user
  profiles (`normalize.dfy`).
- **The search runner** (`search.dfy`):
  - raw-list extraction and filtering for one candidate;
  - the diagnostic path `url.replace(BASE, '').split('?')[0]`;
  - the sequential candidate loop. It is an imperative method that appends
    to the diagnostics and stops at the first hit. It is proved equal to a
    reference definition (first hit, log through it).
- **The handler** (`handler.dfy`):
  - preflight;
  - the token taken from `x-api-key` or from `authorization` with its
    first `"Bearer "` removed;
  - parameter defaults;
  - dispatch on `endpoint`;
  - the 400, 502 and 500 error responses;
  - the payload each endpoint returns.

`text.dfy` holds the string helpers:
- the first-occurrence `replace`;
- `split(c)[0]`;
- decimal digits.

The network is a parameter. `fetch(url, token)` gives what fetching `url`
with the bearer `token` would give. The outcome is either a parsed body
(`Parsed`) or the message of what `fetch` or `res.json()` threw (`Threw`).
The search loop consumes one such outcome per candidate, in order. A ghost
counter records how many candidates it tried.

How the search runner behaves:
- **One candidate at a time.** The handler has no timeouts, no parallel
  runner, no retries and no abort on an authentication failure.
- **Success is decided by the body.** A candidate succeeds on
  `code === 200` in the body and a non-empty filtered list; the HTTP
  status is never read.
- **Normalising comes last.** The search items are normalised after the
  runner has chosen a list.
- **The shape of the diagnostics.** An entry is `{path, code, msg}` for a
  parsed body, or `{error}` for a caught exception. A candidate whose
  body has code 200 but whose list extraction throws logs both entries,
  so a candidate adds one or two entries.

A code-200 hot-search body without a `data` property gets the 500 of the
outer `catch`: its empty-list reply builds the debug sample
`JSON.stringify(json?.data).slice(0, 300)`, and `JSON.stringify(undefined)`
is `undefined`. The model gives that 500.

## Model

| member | source | states |
|---|---|---|
| Text.IndexFrom | api/tikhub.js:110 | the first position at or after `from` where the pattern occurs, with no occurrence before it; `None` exactly when there is none |
| Text.ReplaceFirst | api/tikhub.js:45 | `replace` with a string pattern puts `rep` in place of the first occurrence of the pattern and keeps the rest |
| Text.Before | api/tikhub.js:110 | `split(c)[0]` is the longest prefix without `c`, and it stops at the first `c` |
| Text.ReplaceFirstAtStart | api/tikhub.js:45 | replacing a pattern that starts the string removes exactly that prefix |
| Text.ReplaceFirstAbsent | api/tikhub.js:45 | a string without the pattern is returned unchanged |
| Text.ReplaceFirstKeepsLaterOccurrences | api/tikhub.js:45 | `replace` with a string pattern removes only the first occurrence |
| Text.BeforeStopsAtFirst | api/tikhub.js:110 | `split('?')[0]` of `p + "?" + q` is `p` when `p` has no `?` |
| Text.Decimal | api/tikhub.js:70 | `String(i)` of an index, as `Object.keys` returns it, is a non-empty digit string with no leading zero (only `0` itself starts with `0`) |
| Text.DecimalRoundTrip | api/tikhub.js:151-154 | reading back the decimal notation of `n` gives `n`, so `parseInt` of a count written as digits is that count |
| Text.DecimalUnique | api/tikhub.js:70 | every non-empty digit string without a leading zero is the decimal notation of its value, so `Decimal` is the one spelling `String(i)` can produce |
| Text.LeadingDigitPositive | api/tikhub.js:70 | a digit string starting with a non-zero digit has a positive value |
| Text.DecimalLength | api/tikhub.js:151-154 | a number below 10^k has at most k digits |
| Json.FirstTruthy | api/tikhub.js:78-82 | `a \|\| b \|\| ... \|\| d` is the first truthy operand after only falsy ones, else the last operand `d` |
| Json.LookupFindsFirst | api/tikhub.js:22 | a property read gives the value of the first property with that name |
| Json.LookupMissing | api/tikhub.js:22 | reading a property an object lacks gives `undefined` |
| Json.AllPresentMeans | api/tikhub.js:77 | the recursive "no null or undefined element" check agrees with its index form |
| Json.Compact | api/tikhub.js:121 | `filter(Boolean)` keeps only truthy elements and never grows the list; a one-element list is kept when its element is truthy and emptied otherwise |
| Json.CompactAppend | api/tikhub.js:121 | filtering `xs + ys` is filtering `xs` then `ys`; with the one-element case this fixes the result, elements in their order with their copies |
| Json.CompactMembers | api/tikhub.js:121 | a value survives `filter(Boolean)` exactly when it is in the input and truthy |
| Json.CompactKeepsTruthy | api/tikhub.js:121 | filtering a list of truthy values leaves it unchanged |
| Json.ObjectKeys | api/tikhub.js:70 | `Object.keys` of an object lists its property names in order; of an array or a string it lists `String(i)` for each position i; of a number or boolean nothing |
| Json.Indices | api/tikhub.js:70 | key i is `String(i)`, for i from 0 to n-1, a digit string whose value is its position |
| HotList.FirstNonEmptyArray | api/tikhub.js:27-29 | the key scan finds the first property, in key order, whose value is a non-empty array; `None` exactly when there is none |
| HotList.ExtractHotList | api/tikhub.js:21-35 | a missing or falsy `data` gives `[]` |
| HotList.FirstResolved | api/tikhub.js:21-35 | the reference prober returns the first candidate path that resolved, after only unresolved ones, and `[]` when none did |
| HotList.FirstResolvedAppend | api/tikhub.js:25-33 | probing `a + b` tries every path of `a` before any path of `b` |
| HotList.HotListIsFirstResolvedProbe | api/tikhub.js:21-35 | `extractHotList` is exactly the first resolved probe over: `data.data` as an array (even empty), then `data.data`'s non-empty array values in key order, then `word_list`, `sentence_list`, `list`; a falsy `data` gives `[]` |
| HotList.HotListNestedObject | api/tikhub.js:26-30 | the first non-empty array value of an object `data.data` wins over all the flat fallbacks |
| HotList.HotListFallbackOrder | api/tikhub.js:31-34 | with no array at `data.data` and no non-empty array value in it, `word_list`, `sentence_list` and `list` are tried strictly in that order, then `[]` |
| Normalize.HotEntries | api/tikhub.js:76-83 | the mapping succeeds exactly when no item is null or undefined, otherwise it throws a TypeError; on success it has one entry per item, in order, entry i being item i's entry at rank i + 1 |
| Normalize.HotEntryOf | api/tikhub.js:77-83 | an entry keeps its rank, and each field is a truthy value of the item or its default (`''`, or 0 for hotValue) |
| Normalize.HotEntryFields | api/tikhub.js:79-82 | each hot field is the value of its whole `\|\|` chain: word of word, sentence, hot_value_desc, title, name, else `''`; hotValue of hot_value, event_count, hot_score, score, else 0; label of label_name, sentence_label, label, tag, else `''`; cover of cover_url, then cover.url_list[0], else `''` |
| Normalize.HotCoverPrefersFlat | api/tikhub.js:82 | a truthy flat `cover_url` wins over `cover.url_list[0]`, which is used only when the flat key is falsy |
| Normalize.HotEntryOfEmptyItem | api/tikhub.js:78-82 | the empty object `{}` gets `''`, `0`, `''`, `''` |
| Normalize.ParseCount | api/tikhub.js:151-154 | a safe integer parses to itself and a non-empty digit string of at most 15 digits to its value; a parsed count is only ever one of those, and anything else stays explicitly unparsed, never defaulted |
| Normalize.ParseCountDecimal | api/tikhub.js:151-154 | a count sent as the decimal string of `n` (at most 15 digits) reads back as `n` |
| Normalize.Video | api/tikhub.js:143 | the record is the truthy `aweme_info`, else the item; a truthy item gives a truthy record, so reading its properties never throws |
| Normalize.Stats | api/tikhub.js:144 | the statistics are `statistics`, else `stats`, else `{}`; always truthy, so reading a count never throws |
| Normalize.SearchEntryOf | api/tikhub.js:142-154 | every text field of a search video is a truthy value of the record or `''` |
| Normalize.SearchEntryFields | api/tikhub.js:146-150 | each text field is the value of its whole `\|\|` chain (aweme_id, id; desc, title; author.nickname, author.name; author.unique_id, author.uid), and `video.cover.url_list[0]` takes precedence over `cover_url` |
| Normalize.SearchPlayCount | api/tikhub.js:151 | the play count is `parseInt` of `play_count`, else of `playCount`, else 0 |
| Normalize.SearchDiggCount | api/tikhub.js:152 | the like count is `parseInt` of `digg_count`, else of `like_count`, else 0 |
| Normalize.SearchCommentShareCounts | api/tikhub.js:153-154 | the comment count is `parseInt` of a truthy `comment_count`, and `0` when it is falsy; the share count likewise from `share_count` |
| Normalize.SearchEntryUnwrapsAwemeInfo | api/tikhub.js:143 | an item wrapping a truthy `aweme_info` normalises exactly like that record |
| Normalize.SearchCountsDefaultToZero | api/tikhub.js:144-154 | with neither `statistics` nor `stats`, every count parses to 0 |
| Normalize.UserObject | api/tikhub.js:175 | the user is `data.user`, else `data`, else `{}`; always truthy, so `u.nickname` never throws |
| Normalize.UserRecordOf | api/tikhub.js:175-193 | the profile fails with "未找到该用户" exactly when neither `nickname` nor `uid` is truthy; `uniqueId` is the upstream `unique_id` when truthy, else the request parameter |
| Normalize.UserRecordFields | api/tikhub.js:182-192 | each profile field is the first truthy value of its chain over the user object (`avatar_thumb.url_list[0]` then `avatar_url`, `follower_count` then `fans_count`, and so on), else `''` or `0` |
| Search.DiagPath | api/tikhub.js:110 | the logged path never contains `?` |
| Search.SearchQueries | api/tikhub.js:98-100 | every candidate queries `keyword=<kw>&count=20` |
| Search.SearchCandidates | api/tikhub.js:97-101 | candidate i is the base, endpoint path i, `?` and a query starting `keyword=<kw>&count=20` |
| Search.DiagPathStripsBaseAndQuery | api/tikhub.js:110 | for base + path + `?` + query, the logged path is the path |
| Search.PathLacksQuery | api/tikhub.js:98-100 | no candidate endpoint path contains `?` |
| Search.DiagPathOfCandidate | api/tikhub.js:98-110 | whatever the keyword, candidate i is logged under its own endpoint path |
| Search.Listify | api/tikhub.js:121 | an array becomes its truthy elements in order (`filter(Boolean)`); a non-array raw value becomes `[]` |
| Search.AwemeInfos | api/tikhub.js:118 | the flat map gives exactly the truthy `aweme_info` values of the elements, in element order (`filter(Boolean)` of the mapped values) |
| Search.BusinessInfos | api/tikhub.js:118 | `business_data?.flatMap?.(...)` throws a TypeError exactly when `business_data` is an array with a null or undefined element, or an object with a non-nullish `flatMap`; an array otherwise gives its `aweme_info` values, anything else `undefined` |
| Search.RawSearchList | api/tikhub.js:116-121 | the extracted list holds only truthy values; extraction throws, always a TypeError, exactly when `aweme_list` and `data.data` are falsy and the `business_data` flat map throws |
| Search.AwemeListWins | api/tikhub.js:116 | an `aweme_list` array wins even when empty |
| Search.DataDataFallback | api/tikhub.js:116-121 | with `aweme_list` falsy, a truthy `data.data` is the raw value: filtered when an array, `[]` otherwise |
| Search.NoListAnywhereIsEmpty | api/tikhub.js:116-121 | with `aweme_list` and `data.data` falsy and a `business_data` that neither is an array nor throws, the final empty-array default gives an empty list |
| Search.NonArrayRawIsEmpty | api/tikhub.js:121 | a truthy non-array raw value gives `[]` |
| Search.BusinessDataFallback | api/tikhub.js:116-121 | with `aweme_list` and `data` falsy, a `business_data` array without null elements gives exactly its truthy `aweme_info` values, in order |
| Search.AttemptLog | api/tikhub.js:107-128 | a candidate logs `{error}` alone when fetch or parse threw; otherwise `{path, code, msg}` first, followed by a second `{error}` (a TypeError) exactly when the code is 200 and the list extraction threw |
| Search.AttemptItems | api/tikhub.js:113-125 | a candidate hits exactly when its body has `code === 200` and a non-empty filtered list, and then its list is that filtered list; its list holds truthy values only |
| Search.Try | api/tikhub.js:106-128 | one attempt logs one or two entries; it hits exactly when its body has code 200 and a non-empty filtered list, with that list |
| Search.AttemptsAt | api/tikhub.js:106 | attempt i is the attempt at candidate i with outcome i |
| Search.FirstHit | api/tikhub.js:122-125 | the first candidate with a non-empty list, with no hit before it; `None` exactly when none hits |
| Search.FirstHitAt | api/tikhub.js:122-125 | a hit after a run of misses is the first hit |
| Search.TryCandidate | api/tikhub.js:107-128 | the loop body pushes exactly that candidate's entries and settles on exactly its list |
| Search.RunStep | api/tikhub.js:106-128 | a hit ends the run with its list; a miss appends its entries and the run resumes at the next candidate |
| Search.RunSearch | api/tikhub.js:103-128 | the loop returns the items, the diagnostics and the number of candidates tried that `RunFrom` gives for the attempts, which `RunIsReference` ties to `SearchOutcome` |
| Search.RunLogExtends | api/tikhub.js:111-127 | diagnostics are appended in candidate order: the run's log is the reference log of the attempts it made |
| Search.RunStopsAtFirstHit | api/tikhub.js:122-125 | the run ends at the first hit with its list, or after the last candidate with none |
| Search.RunIsReference | api/tikhub.js:103-128 | the runner yields the first hit's list, the log through it, and tries exactly the candidates up to it; with no hit, `[]`, the full log and every candidate |
| Search.LogThroughPrefix | api/tikhub.js:106-125 | the log of the first n attempts depends on those attempts only |
| Search.SearchIgnoresLaterCandidates | api/tikhub.js:122-125 | nothing after the winning candidate affects the items or the log |
| Search.FirstHitIsFirstGoodCandidate | api/tikhub.js:106-125 | the first attempt that hits is candidate k exactly when k's body has code 200 and a non-empty filtered list and no earlier candidate's does |
| Search.SearchTakesFirstGoodCandidate | api/tikhub.js:103-125 | the search settles on the filtered list of the first candidate with code 200 and a non-empty list, after trying that candidate and every one before it |
| Search.CandidateLoggedUnderPath | api/tikhub.js:110-111 | a parsed candidate is logged with its endpoint path, its code and `message_zh \|\| message` |
| Search.AttemptsLogOneOrTwo | api/tikhub.js:111-127 | every attempt logs one or two entries |
| Search.LogLength | api/tikhub.js:111-127 | n attempts log between n and 2n entries |
| Search.AllFailedLogsEveryCandidate | api/tikhub.js:130-136 | when no candidate has code 200 and a non-empty list, the search gives no items, tries every candidate and logs one or two entries each |
| Handler.ParamGet | api/tikhub.js:41-43 | a parameter reads as missing (`null`) exactly when no parameter has that name |
| Handler.ParamGetFindsFirst | api/tikhub.js:41-43 | a repeated parameter reads as its first occurrence |
| Handler.ParamOr | api/tikhub.js:41-43 | `get(name) \|\| dflt`: a missing or empty parameter takes the default, and a non-empty one is its value; with the default `''` (keyword, unique_id) the result is empty exactly when the parameter is missing or empty |
| Handler.Endpoint | api/tikhub.js:41 | the endpoint is never empty, and a non-empty `endpoint` parameter is used as it is |
| Handler.EndpointDefaultsToHotSearch | api/tikhub.js:41 | a missing or empty `endpoint` means `hot_search` |
| Handler.Token | api/tikhub.js:45-46 | a token is never empty; no token only when there is no non-empty `x-api-key` |
| Handler.ApiKeyWins | api/tikhub.js:45 | a non-empty `x-api-key` is the token whatever `authorization` holds |
| Handler.BearerTokenStripped | api/tikhub.js:45-46 | `authorization: Bearer t` gives the token `t`, and no token when `t` is empty |
| Handler.OnlyFirstBearerStripped | api/tikhub.js:45 | `Bearer Bearer t` gives `Bearer t` |
| Handler.RawAuthorizationUsed | api/tikhub.js:45 | an authorization value without `Bearer ` is the token as it is |
| Handler.NoHeadersNoToken | api/tikhub.js:45-46 | with `x-api-key` missing or empty and no `authorization` there is no token, so the 400 follows |
| Handler.AuthorizationToken | api/tikhub.js:45-46 | without a non-empty `x-api-key`, the token is the `authorization` value with its first `Bearer ` removed wherever it occurs, and none when that leaves the empty string |
| Handler.InnerBearerStripped | api/tikhub.js:45 | a `Bearer ` that is not at the start is still removed: `xBearer y` gives `xy` |
| Handler.BadRequest | api/tikhub.js:16-18 | `err(msg)` has status 400 and no detail |
| Handler.UpstreamError | api/tikhub.js:59-62 | an upstream refusal is a 502 carrying the upstream code, and its message is the first truthy of `message_zh`, `message`, else "TikHub API 返回错误" |
| Handler.HotSearchResponse | api/tikhub.js:55-85 | a thrown fetch is a 500; a code other than 200 is the 502; the reply is a success exactly when the code is 200, the body has `data` and no extracted item is null or undefined, and then item i is the hot entry of extracted item i at rank i + 1, with `Object.keys(json.data \|\| {})` exactly when the list is empty; any other failure is a TypeError |
| Handler.HotNullItemIsServerError | api/tikhub.js:77-240 | a null item in the hot list makes the response a 500 with a TypeError |
| Handler.HotMissingDataIsServerError | api/tikhub.js:64-70 | a code-200 body without `data` gets the 500 with a TypeError, from `JSON.stringify(undefined).slice` |
| Handler.SearchResponse | api/tikhub.js:130-158 | in the model the search answers with success for every run (the throwing `toString` case below is not modelled); the debug log is present exactly when there are no items; the items are the normalised list, in order |
| Handler.UserInfoResponse | api/tikhub.js:164-196 | a thrown fetch is a 500; a code other than 200 is the 502; a 200 body without nickname or uid is the 400 "未找到该用户"; a 200 body with either is exactly `Ok` of the profile record |
| Handler.Handle | api/tikhub.js:37-241 | an OPTIONS preflight gets 204. Without a token every endpoint gets the 400 "Missing TikHub API Key". `hot_search`, `search` and `user_info` answer as their response functions give. `search` without keyword and `user_info` without unique_id get their 400s. `debug` gets its payload. Any other endpoint gets "未知 endpoint: " plus its name |
| Handler.SearchAllFailedIsSuccess | api/tikhub.js:130-136 | when no candidate has code 200 and a non-empty list, the search is a success with no items and a debug log of one or two entries per candidate |

## Left out

- `fetch`, `res.json()` and the edge-runtime `config` are network I/O. The handler takes `fetch(url, token)` as a parameter giving a parsed body or a thrown message.
- `new URL(req.url)` is not modelled. A request arrives with its query parameters already parsed and percent-decoded. Header names are lower-case, as `headers.get` looks them up case-insensitively. A URL that fails to parse is not modelled.
- `encodeURIComponent` is not part of this model. The handler takes it as the parameter `encode`.
- `Response` objects, JSON serialisation and the CORS headers are protocol framing. A response is a plain value: 204, `ok` with its payload, `err` with message, status and upstream code, or the 500 with the caught exception.
- `title`, `type` and `updateTime` (`toLocaleString`) are not modelled, nor the search items' `createTime` (`toLocaleDateString`). These are fixed labels and locale- and clock-dependent host calls.
- The `raw` and `sample` debug strings (`JSON.stringify(...).slice(0, 300)`) and `e.stack` are serialiser and engine internals.
- The `debug` endpoint is routed, but its per-URL sweep is not modelled. It is a network diagnostic with no selection logic; its payload is the constant `Diagnostics`.
- Handler.SearchResponse: the model answers success for every search, but a count or `create_time` that is an object whose own `toString` is not a function (JSON `{"toString":1}`) makes `parseInt` or `v.create_time * 1000` throw a TypeError in the source, which the outer catch turns into a 500. The model keeps such a count as an unparsed value instead, because JavaScript's ToPrimitive conversion is not modelled.
- Normalize.ParseCount: does not model all of `parseInt`. Only integers within ±2^53 and digit strings of at most 15 digits are read. Everything else is kept as an unparsed value rather than a number or NaN. Floating-point numbers are not modelled at all.
- Json: numbers are integers. Object properties are kept in the order `Object.keys` returns them; JavaScript's rule that integer-like keys come first is assumed already applied.
- The text of engine TypeErrors is not modelled. A TypeError carries no message.
- Strings are sequences of characters, not UTF-16 code units.
- Built-in properties such as `length` of arrays and strings are not readable through `Get`. The handler reads none of them through `?.`, apart from `flatMap` on `business_data`, which `Search.BusinessInfos` models.
- Json: a parsed body names each object property once. A value that repeats a name is read at its first occurrence and listed twice by `ObjectKeys`; `JSON.parse` keeping the last value of a repeated name is not modelled.
- Json.ObjectKeys: `Object.keys(null)` throws, but the model gives `[]`; the handler only passes `json?.data || {}`, which is never null or undefined.
