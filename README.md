# Reddit lanes client: lane store and fetch resolver in Dafny

This project models the logic core of a single-page client that shows several
subreddits side by side as "lanes" (`script.js`). Three pieces are modelled,
with the DOM, the network and browser storage taken out:

- **The fetch resolver** (`fetchSubredditPosts`, module `Fetch`). It makes a direct request to the listing
  endpoint and classifies a failed answer. A 404, 403 or 429 gets its own error. Any
  other failing status becomes `FetchFailed(status)`. An ok answer without
  `data.data.children` is an invalid payload. Control goes on to the proxies, tried in
  the order of `CORS_PROXIES` starting at index 1, only when the thrown error is a
  TypeError or its message mentions "CORS" or "Network". The proxy loop skips every bad
  answer and returns the first well-formed listing. When all proxies fail, the result is
  the "unable to fetch / CORS" error. The network is replaced by one `Attempt` value per
  request. `Resolve` is the specification function. `FetchSubredditPosts` is the method
  with the source's loop, proved equal to it.
- **The lane store** (`handleAddLane`, `handleRefreshLane`, `handleRemoveLane`,
  `handleClearAll`, module `Lanes`). It is a class holding `lanes: seq<Lane>`. Each
  write to storage appends the current list to the ghost history `snapshots`. The
  fetch outcome, the `Date.now()` id and the answer to the confirmation dialog are
  parameters.
- **`formatTimeAgo`** (module `TimeFormat`). It buckets the elapsed whole seconds into
  just now, minutes, hours, days or weeks.

Module `Text` holds the string primitives these rely on: `trim`, lower-casing,
`includes` and decimal rendering. `Outcomes` holds `Option` and `Result`.

Quirks of the code that the model keeps:

- **Direct errors that still reach the proxies.** The messages thrown for 404, 403,
  other failing statuses and invalid payloads embed the subreddit name (script.js:136,
  140, 148, 155). The catch clause then searches those messages for "CORS" and "Network"
  (script.js:177). So a name containing either word sends these errors to the proxies.
  `NameSendsToProxies` states this. `DirectErrorIsFinal` covers the other names.
- **Bad listings that throw.** Some listings throw a TypeError when read: a `null`
  body, a `children` value that is not an array, or a child without `data`. These go to
  the proxies instead of ending as "invalid payload".
- **Unreadable bodies.** A body that `response.json()` cannot parse ends with the
  parser's own error (`BadJson`). It goes to the proxies only if that error's message
  mentions CORS or Network.
- **Remove always saves.** Removing an unknown id leaves the list unchanged but still
  writes it to storage.
- **Clear-all asks first.** It empties the list only after the user confirms.

## Model

| member | source | states |
|---|---|---|
| `Text.Trim` | script.js:63 | the trimmed name is the input with its leading and trailing white-space runs cut off and nothing else: a slice `s[i..j]` with only white space before `i` and after `j`; it is empty exactly when the input is all ECMAScript white space, and otherwise neither starts nor ends with white space |
| `Text.TrimIdempotent` | script.js:63 | trimming a trimmed name changes nothing |
| `Text.ToLower` | script.js:72 | lower-casing keeps the length, turns each ASCII capital into the letter 32 code points above it (its small letter) and leaves every other character as it is |
| `Text.Framed` | script.js:177 | a word occurs in `p + name + q` exactly when it occurs in the name, when the frames cannot start or cut across an occurrence: this is how a thrown message inherits the name's "CORS" or "Network" |
| `Text.Decimal` | script.js:148 | the numeral rendered for a status code or a count is non-empty, all digits, with no leading zero |
| `Text.DecimalRoundTrip` | script.js:420-423 | reading a rendered numeral back gives the number |
| `Fetch.Extract` | script.js:151-169 | a listing missing `data` or `children` is malformed; a `null` body, a non-array `children` or a child without `data` throws; otherwise the posts are one per child, in order, each holding its child's nine fields |
| `Fetch.Normalise` | script.js:159-169 | the posts list has as many entries as `children`, in the same order, and each post holds its child's nine fields unchanged, zero or negative scores included |
| `Fetch.Message` | script.js:136-155 | the not-found, forbidden, failed-status and invalid-data messages contain the subreddit name; the rate-limit text and the exhausted text (script.js:222) are fixed |
| `Fetch.FallsBackToProxy` | script.js:177 | a TypeError always goes on to the proxies and a rate-limit error never does; see `Fetch.MessageWords` for the other errors |
| `Fetch.Direct` | script.js:123-171 | the direct request accepts exactly the listings a proxy would accept, with the same posts; every failing status raises a failure of its own, never the exhausted error |
| `Fetch.TryProxy` | script.js:182-218 | one proxy pass yields posts exactly for an ok response whose body parses to a well-formed listing, and then the posts that listing normalises to |
| `Fetch.FromProxies` | script.js:181-222 | the proxy loop can only fail with the exhausted error, and any posts it returns are those of one proxy's well-formed listing; see `Fetch.ProxyOrder` for which one |
| `Fetch.Resolve` | script.js:118-228 | any posts returned come from one of the attempts' well-formed listings; any error other than the exhausted one is exactly what the direct request raised |
| `Fetch.MessageWords` | script.js:135-156 | the not-found, forbidden, failed-status and invalid-data messages mention CORS or Network exactly when the name does; the rate-limit message never does |
| `Fetch.FetchSubredditPosts` | script.js:118-228 | the direct attempt, classification and proxy loop yield exactly the resolver's result, tracked by a loop invariant over the proxies left |
| `Fetch.DirectErrorIsFinal` | script.js:135-156 | for a name without CORS or Network, a 404, a 403, any other failing status but 429, or an ok listing without children ends with its own error whatever the proxies would answer |
| `Fetch.RateLimitIsFinal` | script.js:143-145 | a 429 ends with the rate-limit error for every name, without trying any proxy |
| `Fetch.NameSendsToProxies` | script.js:173-177 | for a name containing CORS or Network, a 404, a 403, another failing status or a listing without children is retried through the proxies |
| `Fetch.DirectNetworkFailure` | script.js:125-177 | a direct request that fails at the network level goes on to the proxies |
| `Fetch.DirectListing` | script.js:151-177 | an ok direct listing whose reading throws a TypeError goes on to the proxies; a well-formed one is returned without trying them |
| `Fetch.DirectBadJson` | script.js:151-177 | an ok direct response whose body does not parse ends with the parser's error, unless that error's message mentions CORS or Network, in which case the proxies are tried |
| `Fetch.ProxyOrder` | script.js:181-222 | proxies are tried in index order; the first with a well-formed listing supplies the posts; the loop fails exactly when every proxy fails, and then only with the exhausted error |
| `Fetch.ProxySkips` | script.js:186-210 | a network failure, a failing status, an unparsable body and a malformed or throwing listing all move on to the next proxy; an ok well-formed listing is taken |
| `Fetch.MissingSubreddit` | script.js:135-137 | a 404 for "thisdoesnotexist123" ends with not-found whatever the proxies say |
| `Fetch.SecondProxySupplies` | script.js:181-213 | a refused direct call, a 500 from proxy 1 and three posts from proxy 2 resolve to those three posts in order |
| `Lanes.HasName` | script.js:72 | the duplicate test holds exactly when some lane's name equals the given name after lower-casing |
| `Lanes.IndexOfId` | script.js:298 | the lookup gives the first lane with the id, or nothing when no lane has it |
| `Lanes.WithoutId` | script.js:333 | the filtered list holds each lane with another id as often as before and no lane with the id, in the original order; it is the list itself when no lane has the id |
| `Lanes.SubsequenceKeepsUnique` | script.js:333 | leaving lanes out never makes two names clash |
| `Lanes.LaneStore.constructor` | script.js:14 | the store starts with no lanes and nothing saved |
| `Lanes.LaneStore.Save` | script.js:365-371 | saving leaves the lanes as they are and records them as the latest snapshot |
| `Lanes.LaneStore.Load` | script.js:373-383 | a saved list replaces the lanes, a corrupt entry empties them, an absent entry leaves them |
| `Lanes.LaneStore.AddLane` | script.js:62-115 | a blank name or a case-insensitive duplicate fails before the fetch result is consulted; a fetch error or zero posts fails; in all failures lanes and storage are unchanged. Otherwise exactly one lane is appended at the end, with the trimmed name, the id and the posts, and that list is saved. Name uniqueness is kept |
| `Lanes.LaneStore.RefreshLane` | script.js:297-328 | an unknown id changes nothing; a failed fetch leaves every lane and storage as before; a successful one, even with zero posts, replaces only that lane's posts, keeping its position, id and name, and saves |
| `Lanes.LaneStore.RemoveLane` | script.js:331-334 | the list becomes the lanes with another id in their original order and is saved; name uniqueness is kept |
| `Lanes.LaneStore.ClearAll` | script.js:352-362 | on an empty list, or without confirmation, nothing changes and nothing is saved; a confirmed clear empties the list and saves the empty list |
| `TimeFormat.TimeAgo` | script.js:416-424 | under 60 s (future timestamps included) is just now; then minutes below an hour, hours below a day, days below a week, weeks beyond; each count is the number of whole units elapsed and lies in 1..59, 1..23, 1..6 or at least 1 |
| `TimeFormat.FormatTimeAgo` | script.js:416-424 | the text is "just now" exactly under a minute; otherwise it ends in " ago", after `m` below an hour, `h` below a day, `d` below a week and `w` beyond |
| `TimeFormat.FormatTimeAgoText` | script.js:419-423 | past a minute, the characters before the unit letter are all digits, do not start with a zero, and denote the bucket's count |

Storage round trip: `Save` records the list it writes as the latest snapshot. `Load`
of that snapshot (`Saved(s)`) sets the lanes to exactly `s`.

## Left out

- Rendering and event wiring (`renderLane`, `renderPosts`, `renderAllLanes`, `setupEventListeners`, `showMessage`, the loading and empty-state helpers, `escapeHtml`, the display part of `init`): presentational, they depend on the browser DOM.
- The `fetch` calls, URL construction with `encodeURIComponent`, `POSTS_LIMIT` and `REDDIT_API_BASE`: network I/O. Each request is replaced by its outcome (`Attempt`).
- `JSON.stringify`/`JSON.parse` in `saveLanesToStorage`/`loadLanesFromStorage`: foreign serialisation. A save is a snapshot of the list. A load is a `Stored` value. A stored value that parses to something other than a list of lanes is not modelled.
- `formatNumber`: it relies on floating-point `toFixed`.
- `setTimeout` delays, the fade-out animation and `console` logging. The `confirm` dialog is the boolean parameter of `ClearAll`.
- Overlapping asynchronous handlers: each handler is one atomic step. A lane removed while its refresh is in flight is therefore not modelled.
- Lanes are values in a sequence, not shared objects. `lane.posts = posts` becomes an update of one element, and aliasing between a rendered lane and the list is not captured.
- Fields absent from a listing child (`undefined` in the source) are not modelled: every child record carries all nine fields.
- `created_utc` and `Date.now() / 1000` are fractional in the source. `TimeFormat.TimeAgo` takes both in whole seconds.
- `Text.ToLower`: folds ASCII letters only, not the full Unicode case mapping of `toLowerCase`; subreddit names are ASCII.
- A status code is a natural number, and `response.ok` is a status from 200 to 299.
- `Lanes.LaneStore.Save`: always records a snapshot. In the source, a `localStorage.setItem` that throws (quota, private mode) is caught and logged, and nothing is written (script.js:366-370); the model has no failing write.
- `Fetch.Attempt`: every request is assumed to settle, with a response or a network failure. The source sets no time-out on `fetch` (script.js:125, 186), so a request that never settles leaves the handler waiting; that is not modelled.
