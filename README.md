# Daleel in Dafny

A Dafny model of the logic of Daleel, a Lebanese-elections information site.
The site has two Next.js front ends, an Express back end, shared helpers and
two Telegram scraping scripts. The model covers the parts that decide
something. Rendering, the database and the Telegram client are left out.
Each source file becomes one module, named after it:

- **Scrapers.** `ScrapeManyChannel` and `ScrapeOneChannel` cover the history
  cursor loop, the message cap and the retry-on-failure behaviour. They also
  cover the skip-if-output-exists driver and the checkpoint file.
  - The Telegram backend is a function from (request number, cursor, page
    size) to a page or a failure.
  - The data directory is a map from file name to contents.
- **Back-end state.**
  - `RateLimit`: the fixed-window rate limiter.
  - `Auth`: the session store, its sweep and the 401/403 role gate.
  - `AppendOnly`: the append-only write guard of the database middleware.
- **Request plumbing.**
  - `Router`: API routing and security headers.
  - `BackendAdapter`: the Express response adapter's state machine and its
    Set-Cookie builder.
  - `Audit`: client information.
  - `ApiUtils`: response and pagination helpers.
- **Strings and validators.**
  - `SharedTypes`: localisation fallback and slug sanitising.
  - `Validation`: the shared validation schemas.
  - `Schemas`: the core entity and query schemas, read as parsers that return
    the record with its defaults or an error.
  - `Seed`: the seed script's slugging, CSV parsing and distribution
    arithmetic.
- **Seat allocation.** `VotesToSeats` covers the electoral threshold and the
  largest-remainder (Hamilton) method, computed exactly on integers, plus the
  simulation component that runs and resets it.
- **Front-end filters and UI state.**
  - Filters and panels: `CandidatesGrid`, `DistrictsList`, `ListsList`,
    `CandidateFilters`, `ListFilters`.
  - Widgets: `CustomSelect`, `Carousel`, `NewsPreview`, `CentersMap`,
    `Navbar`, `RulesCards`, `PlaceholderPhoto`, `CentersPage`.

Code that works step by step is modelled with methods, loops and classes:

- the scraper loops;
- the stores of the rate limiter and the session store;
- the response adapter;
- the allocation loops;
- the React components whose handlers update state.

Each such method's `ensures` gives the new state in terms of the old one,
through a specifying function where the update is not a plain assignment. Pure
code is modelled with functions and lemmas. `Wrappers`, `Strings` and `Seqs` hold the
shared helpers:

- `Option` and `Result`;
- ASCII case mapping, substring search, splitting, trimming and decimal
  rendering;
- filtering with its membership and order lemmas.

Every function is deterministic, so equal inputs give equal results. For
example, two candidates with the same seed get the same placeholder.

## Model

| member | source | states |
|---|---|---|
| ScrapeManyChannel.Texts | scrape/test/scrape_many_channel.py:117-124 | only messages with non-empty text become records, never more records than messages |
| ScrapeManyChannel.TextsAppend | scrape/test/scrape_many_channel.py:117-124 | the records of two pages in a row are the first page's followed by the second's, so page order is kept |
| ScrapeManyChannel.TakeTexts | scrape/test/scrape_many_channel.py:117-126 | one page never takes the records beyond the cap once below it |
| ScrapeManyChannel.TakeTextsExtends | scrape/test/scrape_many_channel.py:117-126 | one page only appends to the records held |
| ScrapeManyChannel.TakeTextsFits | scrape/test/scrape_many_channel.py:117-126 | below the cap, a page adds exactly its text records, in order, as many as still fit |
| ScrapeManyChannel.Collect | scrape/test/scrape_many_channel.py:99-146 | the page loop: the records never exceed the cap, and an unfinished loop only stops when the request budget runs out |
| ScrapeManyChannel.CollectExtends | scrape/test/scrape_many_channel.py:99-146 | the records the loop finishes with start with the records it started from: they only grow |
| ScrapeManyChannel.TakePage | scrape/test/scrape_many_channel.py:116-126 | the inner `for` loop appends the page's text records and stops at the cap, equal to `TakeTexts` |
| ScrapeManyChannel.CollectMessages | scrape/test/scrape_many_channel.py:91-146 | the `while` loop over cursor, records and retries computes exactly `Collect` from cursor 0 with no records |
| ScrapeManyChannel.CollectPage | scrape/test/scrape_many_channel.py:117-130 | after a non-empty page the cursor is the id of the page's last raw message, text or not |
| ScrapeManyChannel.CollectRetry | scrape/test/scrape_many_channel.py:142-146 | a failed request keeps the cursor and the records and retries |
| ScrapeManyChannel.CollectEnd | scrape/test/scrape_many_channel.py:112-114 | an empty page ends the loop with the records held |
| ScrapeManyChannel.AlwaysFailingNeverFinishes | scrape/test/scrape_many_channel.py:99-146 | a backend that always fails keeps the loop retrying: there is no retry bound |
| ScrapeManyChannel.OlderAfter | scrape/test/scrape_many_channel.py:101-128 | against a newest-first history, the request at the id of message j-1 starts at message j |
| ScrapeManyChannel.PageStep | scrape/test/scrape_many_channel.py:117-136 | one served page advances the position and cursor and holds the texts so far, or the capped prefix once the cap is reached |
| ScrapeManyChannel.ServedStep | scrape/test/scrape_many_channel.py:99-136 | one served request either continues from the next cursor with the texts so far or finishes with the newest `max` texts |
| ScrapeManyChannel.ServesAtCursorsFromHistory | scrape/test/scrape_many_channel.py:101-110 | a server answering from a newest-first history answers every cursor the loop can reach from the right position |
| ScrapeManyChannel.CollectHistoryFrom | scrape/test/scrape_many_channel.py:99-146 | from any reachable position the loop either runs out of budget or saves the newest `max` text records |
| ScrapeManyChannel.EndOfHistory | scrape/test/scrape_many_channel.py:112-114 | the empty page past the end finishes with every text record |
| ScrapeManyChannel.CollectHistoryLiveFrom | scrape/test/scrape_many_channel.py:99-146 | a server that never fails lets the loop finish within one request per remaining message |
| ScrapeManyChannel.CollectHistory | scrape/test/scrape_many_channel.py:91-146 | the saved records are the newest `max` text records of the channel in history order, whatever requests failed; a reliable server lets the loop finish |
| ScrapeManyChannel.OutputName | scrape/test/scrape_many_channel.py:63-149 | the output file is `<channel>.json` |
| ScrapeManyChannel.OutputNameInjective | scrape/test/scrape_many_channel.py:63-149 | distinct channels have distinct output files |
| ScrapeManyChannel.PendingMembers | scrape/test/scrape_many_channel.py:178-182 | a channel is scraped iff it is configured and its output file does not exist |
| ScrapeManyChannel.ScrapedKeepsOthers | scrape/test/scrape_many_channel.py:149-193 | scraping writes only the processed channels' output files |
| ScrapeManyChannel.ScrapedWrites | scrape/test/scrape_many_channel.py:149-151 | a resolvable channel whose loop finished has exactly its collected records in its output file |
| ScrapeManyChannel.ScrapedSkipsUnresolved | scrape/test/scrape_many_channel.py:84-158 | a channel that fails to resolve gets no output file |
| ScrapeManyChannel.ScrapedSnoc | scrape/test/scrape_many_channel.py:191-193 | channels are scraped one after the other and the total sums their counts |
| ScrapeManyChannel.CheckpointedSnoc | scrape/test/scrape_many_channel.py:191-198 | after each channel, fatal or not, the channel is appended to the completed list and the checkpoint saved |
| ScrapeManyChannel.CheckpointedChannel | scrape/test/scrape_many_channel.py:149-198 | a processed channel's output file holds its records, or is absent when it did not resolve |
| ScrapeManyChannel.CheckpointedKeepsOthers | scrape/test/scrape_many_channel.py:149-197 | the driver writes nothing but the checkpoint and the processed channels' outputs |
| ScrapeManyChannel.DataDir.LoadCheckpoint | scrape/test/scrape_many_channel.py:47-52 | a missing checkpoint gives the empty completed list; an unreadable one is an error |
| ScrapeManyChannel.DataDir.SaveCheckpoint | scrape/test/scrape_many_channel.py:55-58 | the checkpoint file is overwritten and nothing else changes |
| ScrapeManyChannel.DataDir.ChannelAlreadyScraped | scrape/test/scrape_many_channel.py:61-64 | true iff the channel's output file exists |
| ScrapeManyChannel.DataDir.PendingChannels | scrape/test/scrape_many_channel.py:175-182 | the loop keeps the configured channels without an output file, in order |
| ScrapeManyChannel.DataDir.ScrapeChannel | scrape/test/scrape_many_channel.py:77-158 | an unresolvable channel returns 0 and writes nothing; otherwise the records are written once, after the loop, and their number returned |
| ScrapeManyChannel.DataDir.ScrapeAll | scrape/test/scrape_many_channel.py:190-198 | the driver loop leaves the directory `Checkpointed` over the pending channels and totals their counts |
| ScrapeManyChannel.DataDir.Run | scrape/test/scrape_many_channel.py:161-209 | `main`: an unreadable checkpoint stops the run, nothing pending changes nothing, otherwise every pending channel is scraped and checkpointed in order |
| ScrapeOneChannel.CollectAll | scrape/test/scrape_1_channel.py:52-105 | the `while True` loop (page 100, cap 1000) computes `Collect`; the running total is overwritten by the record count |
| ScrapeOneChannel.Scrape | scrape/test/scrape_1_channel.py:36-114 | a connection or resolution failure is fatal and writes nothing; otherwise the records are written after the loop |
| ScrapeOneChannel.SavesNewestTexts | scrape/test/scrape_1_channel.py:52-108 | the saved file holds the newest 1000 text records in history order, and a reliable server lets the script finish |
| RateLimit.CheckStep | backend/src/lib/rate-limit.ts:34-65 | a missing or ended window (`resetAt < now`) is replaced by one with count 1 ending at `now + windowMs`, and the call is admitted with remaining `max - 1` (so -1 when max is 0); a full live window refuses with remaining 0 and changes nothing; otherwise the count rises by exactly one, the end stays, and remaining is `max - count`; other identifiers' entries are untouched |
| RateLimit.CheckKeepsBound | backend/src/lib/rate-limit.ts:38-64 | for `max >= 1` every stored count stays at most `max` |
| RateLimit.CountAllowed | backend/src/lib/rate-limit.ts:29-65 | the number of admitted calls in a sequence of checks is at most the number of calls |
| RateLimit.LiveWindowAdmits | backend/src/lib/rate-limit.ts:38-64 | while a window is live (the end instant included), it admits at most `max - count` more calls |
| RateLimit.WindowAdmitsAtMostMax | backend/src/lib/rate-limit.ts:38-64 | the calls of one window admit at most `max` calls, or one call when `max` is 0 |
| RateLimit.Live | backend/src/lib/rate-limit.ts:19-26 | the sweep keeps exactly the entries with `resetAt >= now`, unchanged |
| RateLimit.SweepInvisible | backend/src/lib/rate-limit.ts:19-38 | an earlier sweep never changes a later check's decision |
| RateLimit.SweepIdempotent | backend/src/lib/rate-limit.ts:19-26 | sweeping twice at the same instant is sweeping once |
| RateLimit.RateLimiter.constructor | backend/src/lib/rate-limit.ts:14 | the store starts empty |
| RateLimit.RateLimiter.Check | backend/src/lib/rate-limit.ts:29-65 | the method updates the store and answers as `CheckStep` |
| RateLimit.RateLimiter.Sweep | backend/src/lib/rate-limit.ts:19-26 | the store becomes `Live` of the old store |
| RateLimit.ClientIdentifier | backend/src/lib/rate-limit.ts:92-98 | the first comma-separated element of `x-forwarded-for`, untrimmed, from the first array element when it is an array; else the request ip; else "unknown" |
| Auth.Login | backend/src/lib/auth.ts:31-65 | an unknown user, an inactive user and a wrong password give the same "Invalid credentials" failure and leave the store alone; a success stores the session under the fresh id with the user's id, email and role, expiring 24 hours later |
| Auth.Lookup | backend/src/lib/auth.ts:89-108 | without a cookie or a stored session: none; an expired session (`expiresAt < now`) is deleted and reported as none; at `expiresAt == now` it is still valid |
| Auth.Logout | backend/src/lib/auth.ts:110-117 | only the cookie's session is removed, and nothing without a cookie |
| Auth.Live | backend/src/lib/auth.ts:197-205 | the sweep keeps exactly the unexpired sessions, unchanged |
| Auth.AuthGate | backend/src/lib/auth.ts:128-152 | 401 "Unauthorized" exactly when there is no session, otherwise a context copying the session |
| Auth.RoleGate | backend/src/lib/auth.ts:154-190 | 401 without a session, then 403 "Forbidden" for a role outside the list, otherwise admitted |
| Auth.RoleGateRefinesAuthGate | backend/src/lib/auth.ts:128-190 | the role gate admits with `requireAuth`'s context, rejects whenever `requireAuth` does, and equals it when every role is allowed |
| Auth.RoleGateMonotone | backend/src/lib/auth.ts:168 | allowing more roles never rejects a session that was admitted |
| Auth.LoginThenLookup | backend/src/lib/auth.ts:54-107 | a new session is found until its expiry instant and is gone after it |
| Auth.SweepInvisible | backend/src/lib/auth.ts:102-205 | an earlier sweep never changes what a later lookup finds |
| Auth.LogoutThenLookup | backend/src/lib/auth.ts:97-117 | after logout the same cookie finds no session |
| Auth.SessionStore.constructor | backend/src/lib/auth.ts:22 | the session map starts empty |
| Auth.SessionStore.AuthenticateUser | backend/src/lib/auth.ts:31-65 | the store and the answer are those of `Login` |
| Auth.SessionStore.GetSession | backend/src/lib/auth.ts:89-108 | the store and the answer are those of `Lookup` |
| Auth.SessionStore.DestroySession | backend/src/lib/auth.ts:110-117 | the store becomes `Logout` of the old store |
| Auth.SessionStore.RequireAuth | backend/src/lib/auth.ts:128-152 | `AuthGate` over `getSession`'s answer, with its deletion of an expired session |
| Auth.SessionStore.RequireRole | backend/src/lib/auth.ts:154-190 | `RoleGate` over `getSession`'s answer |
| Auth.SessionStore.Sweep | backend/src/lib/auth.ts:197-205 | the store becomes `Live` of the old store |
| AppendOnly.Guard | packages/db/src/middleware.ts:24-63 | a call throws iff its model is immutable and it is a delete, or an update of a model other than Source, or a Source update whose data names an archive field; otherwise `next` gets the params unchanged |
| AppendOnly.OtherActionsPass | packages/db/src/middleware.ts:26-63 | only delete, deleteMany, update and updateMany are inspected; create and upsert pass |
| AppendOnly.MutableModelsPass | packages/db/src/middleware.ts:27-63 | calls on models outside the immutable list, or with no model, pass through |
| AppendOnly.SourceMetadataUpdatePasses | packages/db/src/middleware.ts:39-53 | a Source update without data, or with data naming no archive field, passes |
| AppendOnly.SourceRefusalMonotone | packages/db/src/middleware.ts:41-51 | adding fields to a refused Source update keeps it refused |
| Router.Segments | backend/src/api/router.ts:19 | the path's non-empty segments, none empty |
| Router.SegmentsAtSlash | backend/src/api/router.ts:19 | splitting at a slash splits the two sides independently |
| Router.SegmentsOfWord | backend/src/api/router.ts:19 | a slash-free word is one segment, the empty word none |
| Router.ExtraSlashesIgnored | backend/src/api/router.ts:19 | doubled and trailing slashes do not change the segments |
| Router.RouteOf | backend/src/api/router.ts:19-53 | exactly `/health` and `/api/health` are the health check, checked first; `api/public`, `api/admin`, `api/auth` dispatch with the segments after the first two; every other path is not found |
| Router.RouteIgnoresDoubledSlashes | backend/src/api/router.ts:19-53 | outside the health check, doubled slashes route the same way |
| Router.TwoSegments | backend/src/api/router.ts:19 | `/a/b/` has exactly the segments a and b |
| Router.HealthIsExact | backend/src/api/router.ts:22 | the health check compares the whole path: `/api/health/` is not found |
| Router.SetMissing | backend/src/api/router.ts:67-73 | existing headers keep their values, every listed header is present afterwards, and no other header is added |
| Router.SetMissingValue | backend/src/api/router.ts:69-72 | a listed header the response lacked gets the listed value |
| Router.AddMissingHeaders | backend/src/api/router.ts:67-79 | status, status text and body are kept, existing header values are kept, and every security header is present |
| Router.HandleApiRequest | backend/src/api/router.ts:14-65 | every response carries every security header |
| Router.HandleApiRequestOwnAnswers | backend/src/api/router.ts:22-64 | the health check answers 200 with the status body, and an unknown path 404 "Not found" |
| Router.HandleApiRequestDispatched | backend/src/api/router.ts:35-79 | a dispatched request answers with the handler's status, body and headers |
| BackendAdapter.AttributesRequested | frontend/backend-adapter.ts:159-165 | the cookie attributes present are exactly the requested ones, in the fixed order HttpOnly, Secure, SameSite, Path, Max-Age |
| BackendAdapter.PushedUpto | frontend/backend-adapter.ts:159-165 | after each conditional push the parts are exactly the requested attributes pushed so far, in that order |
| BackendAdapter.RenderAll | frontend/backend-adapter.ts:160-165 | one rendered part per attribute, in order |
| BackendAdapter.CookieHeaderShape | frontend/backend-adapter.ts:159-166 | a cookie header starts with `name=value`, and is exactly that without options |
| BackendAdapter.ZeroMaxAgeOmitted | frontend/backend-adapter.ts:165 | a `maxAge` of 0 is falsy and left out |
| BackendAdapter.ClearCookieShape | frontend/backend-adapter.ts:170-176 | `clearCookie` gives `name=; Max-Age=0`, followed by `; Path=p` when a path is given |
| BackendAdapter.ApplyConsistent | frontend/backend-adapter.ts:104-185 | every call keeps a finished response marked as sent |
| BackendAdapter.StatusAnyTime | frontend/backend-adapter.ts:119-123 | `status` changes only the code, at any time, even after a body was written |
| BackendAdapter.ApplyCookies | frontend/backend-adapter.ts:142-176 | Set-Cookie values from `setHeader` (any case, single or array), `cookie` and `clearCookie` are appended, never overwritten |
| BackendAdapter.CookiesAccumulate | frontend/backend-adapter.ts:142-176 | over any sequence of calls the cookies are the old ones followed by every call's cookies in call order |
| BackendAdapter.BodyFixedOnceFinished | frontend/backend-adapter.ts:125-185 | once finished, no later call changes the body |
| BackendAdapter.ContentTypeOnlyFromJson | frontend/backend-adapter.ts:125-140 | the first `json` sets `content-type: application/json` and the body; `send` sets the body and no header |
| BackendAdapter.SetThenGetHeader | frontend/backend-adapter.ts:142-157 | a non-cookie header is stored under its lower-cased name and read back case-insensitively |
| BackendAdapter.EndKeepsFirstBody | frontend/backend-adapter.ts:178-185 | `end` stores a truthy chunk only when nothing was sent, and always finishes |
| BackendAdapter.ExpressResponse.constructor | frontend/backend-adapter.ts:104-109 | status 200, no headers, cookies or body, not finished |
| BackendAdapter.ExpressResponse.SetStatus | frontend/backend-adapter.ts:119-123 | the state after `status` is `Apply` of it |
| BackendAdapter.ExpressResponse.SendJson | frontend/backend-adapter.ts:125-132 | the state after `json` is `Apply` of it |
| BackendAdapter.ExpressResponse.SendData | frontend/backend-adapter.ts:134-140 | the state after `send` is `Apply` of it |
| BackendAdapter.ExpressResponse.SetHeaderValue | frontend/backend-adapter.ts:142-153 | the state after `setHeader` is `Apply` of it |
| BackendAdapter.ExpressResponse.GetHeaderValue | frontend/backend-adapter.ts:155-157 | the value stored under the lower-cased name, if any |
| BackendAdapter.ExpressResponse.SetCookie | frontend/backend-adapter.ts:159-168 | the state after `cookie` is `Apply` of it |
| BackendAdapter.ExpressResponse.ClearCookieNamed | frontend/backend-adapter.ts:170-176 | the state after `clearCookie` is `Apply` of it |
| BackendAdapter.ExpressResponse.EndResponse | frontend/backend-adapter.ts:178-185 | the state after `end` is `Apply` of it |
| BackendAdapter.RemoteAddress | frontend/backend-adapter.ts:69-71 | the trimmed first `x-forwarded-for` entry when non-empty, else `x-real-ip` when non-empty, else "unknown"; never empty |
| BackendAdapter.BodyOf | frontend/backend-adapter.ts:44-60 | GET, HEAD and OPTIONS have no body; otherwise a JSON content type gives the parsed value, or `{}` when malformed, a form content type gives the form body, and any other content type leaves the body undefined |
| Audit.ClientIp | backend/src/lib/audit.ts:36-38 | the trimmed first comma-separated `x-forwarded-for` entry when non-empty, else a non-empty `x-real-ip`, else none; a reported address is never empty |
| Audit.GetClientInfo | backend/src/lib/audit.ts:35-41 | the address is `ClientIp`; the user agent is reported iff the header is present and non-empty |
| Audit.ClientIpMatchesAdapter | backend/src/lib/audit.ts:36-38 | with "unknown" for a missing address, the audit's client address is the one the Express adapter reports |
| Audit.RowOf | backend/src/lib/audit.ts:18-28 | the row copies every field of the event and stores `{}` when the event has no metadata |
| Audit.AuditLog.constructor | backend/src/lib/audit.ts:18 | the log starts empty |
| Audit.AuditLog.LogAuditEvent | backend/src/lib/audit.ts:8-33 | a successful write appends the event's row; a failed write changes nothing and does not reach the caller; either way the earlier rows stay, in place, as a prefix |
| ApiUtils.SuccessResponse | backend/src/lib/api-utils.ts:11-13 | a success envelope holding the data, with status 200 unless another is given |
| ApiUtils.TotalPages | backend/src/lib/api-utils.ts:31 | `ceil(total / pageSize)`: zero iff there are no items, and the least page count whose pages hold them all |
| ApiUtils.EveryItemHasAPage | backend/src/lib/api-utils.ts:31 | every item's page number lies between 1 and the page count |
| ApiUtils.LastPageHoldsAnItem | backend/src/lib/api-utils.ts:31 | the last page is never empty |
| ApiUtils.PaginatedResponse | backend/src/lib/api-utils.ts:18-33 | status 200 and an envelope echoing the items, total, page and page size, with a page count that is zero iff the total is |
| ApiUtils.ErrorResponse | backend/src/lib/api-utils.ts:38-52 | a failure envelope with the message, status 500 unless another is given, and the details exactly when they are truthy |
| ApiUtils.HandleApiError | backend/src/lib/api-utils.ts:57-74 | status 400 with "Validation error" and the issues iff the error is a validation failure; otherwise 500 with the error's own message only in development, else the generic message |
| ApiUtils.ProductionHidesMessages | backend/src/lib/api-utils.ts:67-71 | outside development no 500 answer carries anything but the generic message |
| ApiUtils.EmptyIssuesStillReported | backend/src/lib/api-utils.ts:48-50 | an empty issue list is an array, so it is truthy and still sent as details |
| ApiUtils.MethodNotAllowed | backend/src/lib/api-utils.ts:79-81 | status 405 with "Method not allowed" and no details |
| SharedTypes.GetLocalized | shared/types.ts:26-31 | the locale's entry when non-empty, else English when non-empty, else Arabic; empty iff all three used entries are |
| SharedTypes.FrenchIsNeverFallback | shared/types.ts:30 | for a locale other than French the French entry never affects the result |
| SharedTypes.SkipGaps | shared/types.ts:39 | a suffix of the input that does not start with white space or `_` |
| SharedTypes.HyphenateGaps | shared/types.ts:39 | only characters of the input that are not gaps, and hyphens; an input without gaps is unchanged |
| SharedTypes.DropLeadingHyphens | shared/types.ts:40 | a suffix of the input that does not start with `-`; unchanged when the input does not |
| SharedTypes.DropTrailingHyphens | shared/types.ts:40 | a prefix of the input that does not end with `-`; unchanged when the input does not |
| SharedTypes.StripHyphens | shared/types.ts:40 | neither end is `-`, and an input whose ends are not hyphens is unchanged |
| SharedTypes.SanitizeSlugChars | shared/types.ts:34-41 | a sanitised slug holds only lower-case ASCII letters, digits and hyphens |
| SharedTypes.SanitizeSlug | shared/types.ts:36-40 | a sanitised slug neither starts nor ends with a hyphen |
| SharedTypes.SanitizeSlugFixes | shared/types.ts:34-41 | a string already made of slug characters with no hyphen at either end is its own sanitised form |
| SharedTypes.SanitizeSlugIdempotent | shared/types.ts:34-41 | sanitising twice gives what sanitising once gives |
| SharedTypes.SpecialCharacterDropped | shared/types.ts:38 | a character outside word characters, white space and `-` is removed and its neighbours are joined |
| SharedTypes.SkipGapsRun | shared/types.ts:39 | skipping a run of gaps lands on the first character after the run |
| SharedTypes.GapRunBecomesOneHyphen | shared/types.ts:39 | a whole run of white space and underscores becomes a single hyphen |
| SharedTypes.HyphenKept | shared/types.ts:39 | an existing hyphen is not a gap and stays |
| Validation.SanitizedSlugIsValid | shared/validation.js:18-22 | a non-empty sanitised slug of at most 200 characters passes the slug schema |
| Validation.IsSlug | shared/validation.js:18-22 | a slug is non-empty and has no space, slash or upper-case letter |
| Validation.ParseLocale | shared/validation.js:24 | accepts exactly "ar", "en" and "fr", and the locale read back spells the input |
| Validation.LocaleRoundTrip | shared/validation.js:24 | every locale's name parses back to that locale |
| Validation.ValidTextNeedsNoFallback | shared/validation.js:26-30 | for a text that passes the multilingual schema, `getLocalized` is the locale's own non-empty entry |
| Validation.IsMultilingualText | shared/validation.js:26-30 | a text passes iff its entry for every locale is non-empty |
| Validation.ParsePagination | shared/validation.js:40-43 | accepted iff each number is absent or a whole number in range (page at least 1, page size 1 to 100); absent ones default to 1 and 20 |
| Validation.PaginationDefaults | shared/validation.js:40-43 | an empty query reads as page 1 of size 20 |
| Validation.ParseArchiveMethod | shared/validation.js:47-53 | accepts exactly the five archive method names, each read back to its name |
| Validation.ArchiveMethodRoundTrip | shared/validation.js:47-53 | every archive method's name parses back to that method |
| Validation.IsWebUrl | shared/validation.js:6-17 | a text the URL parser rejects never passes; an accepted protocol is an "http…:" scheme |
| Schemas.Str | packages/core/src/schemas.ts:23-24 | a string field is accepted iff present, textual and within its length bounds, and is returned unchanged |
| Schemas.OptStr | packages/core/src/schemas.ts:29-31 | an optional string is accepted iff absent or textual, and reads as none iff absent |
| Schemas.Enum | packages/core/src/schemas.ts:28 | an enum field is accepted iff present, textual and one of the allowed values |
| Schemas.EnumDefault | packages/core/src/schemas.ts:46-49 | an absent enum field takes its default; a present one is checked as an enum |
| Schemas.Uuid | packages/core/src/schemas.ts:39-40 | accepted iff present, textual and a UUID, and the value is the body's text |
| Schemas.OptUuid | packages/core/src/schemas.ts:41 | an absent optional UUID reads as none |
| Schemas.Url | packages/core/src/schemas.ts:25-26 | an accepted URL is present, textual and uses http or https |
| Schemas.Date | packages/core/src/schemas.ts:27 | a missing field is rejected; a present one is accepted iff it coerces to a date, and reads as that date |
| Schemas.OptDate | packages/core/src/schemas.ts:87 | an absent optional date reads as none |
| Schemas.ParseSource | packages/core/src/schemas.ts:22-32 | an accepted source is the body's own fields (title, publisher, both URLs, the coerced archive date, the archive method read back from its name, the optional texts present iff given) and meets the schema: title 1 to 500 and publisher 1 to 200 characters, both URLs on http or https |
| Schemas.ParseSourceAccepts | packages/core/src/schemas.ts:22-32 | every body carrying a valid source's fields parses to exactly that source: the schema rejects nothing it should accept |
| Schemas.LongTitleRejected | packages/core/src/schemas.ts:23 | a title over 500 characters rejects the source |
| Schemas.ParseCandidate | packages/core/src/schemas.ts:38-50 | an accepted candidate is the body's own fields, an absent status or photo style standing for POTENTIAL or GEOMETRIC, and meets the schema: UUID cycle, district and optional list, three non-empty names, a valid slug, a known status and photo style |
| Schemas.ParseCandidateAccepts | packages/core/src/schemas.ts:38-50 | every body carrying a valid candidate's fields, or omitting status and style where the candidate has the defaults, parses to exactly that candidate |
| Schemas.CandidateNamesRequired | packages/core/src/schemas.ts:42-44 | an empty name in any language rejects the candidate |
| Schemas.ParseCandidateStatus | packages/core/src/schemas.ts:52-54 | accepted iff the status is present and one of the four candidate statuses |
| Schemas.ParseListAssignment | packages/core/src/schemas.ts:56-58 | `null` unassigns, and only `null` does; an assignment names the body's own `listId`, a UUID; a missing `listId` is rejected |
| Schemas.ParseListAssignmentAccepts | packages/core/src/schemas.ts:56-58 | a body whose `listId` is a UUID assigns the candidate to exactly that list |
| Schemas.ParseAffiliation | packages/core/src/schemas.ts:64-74 | an accepted affiliation is the body's own fields (an end date absent or null reads as none, a present one is coerced) and meets the schema: UUID candidate and source, a known type, three non-empty names; without a start date the body is rejected |
| Schemas.ParseAffiliationAccepts | packages/core/src/schemas.ts:64-74 | every body carrying a valid affiliation's fields parses to exactly that affiliation |
| Schemas.ParseStatement | packages/core/src/schemas.ts:80-89 | an accepted statement is the body's own fields (optional summaries and date present iff given) and meets the schema: UUID candidate, topic and source, a known kind |
| Schemas.ParseStatementAccepts | packages/core/src/schemas.ts:80-89 | every body carrying a valid statement's fields parses to exactly that statement |
| Schemas.ParseDistrict | packages/core/src/schemas.ts:95-102 | an accepted district is the body's own fields (the seat count a JSON number, the notes present iff given) and meets the schema: a UUID cycle, three non-empty names, at least one seat; a count below 1 is rejected |
| Schemas.ParseDistrictAccepts | packages/core/src/schemas.ts:95-102 | every body carrying a valid district's fields parses to exactly that district |
| Schemas.ParseList | packages/core/src/schemas.ts:104-113 | an accepted list is the body's own fields, an absent status standing for DRAFT, and meets the schema: UUID cycle and district, three non-empty names, a known status |
| Schemas.ParseListAccepts | packages/core/src/schemas.ts:104-113 | every body carrying a valid list's fields, or omitting a DRAFT status, parses to exactly that list |
| Schemas.ParseDecision | packages/core/src/schemas.ts:119-127 | accepted iff the status is one of the allowed two and the notes are absent or textual; the status and notes are the body's, the notes absent iff not given |
| Schemas.ParseSubmissionDecision | packages/core/src/schemas.ts:119-122 | an accepted decision is the body's APPROVED or REJECTED status and its notes, absent iff not given; with such a status the body is accepted iff its notes are absent or textual |
| Schemas.ParseReplyDecision | packages/core/src/schemas.ts:124-127 | an accepted decision is the body's PUBLISHED or REJECTED status and its notes, absent iff not given; with such a status the body is accepted iff its notes are absent or textual |
| Schemas.ParseProfileVersion | packages/core/src/schemas.ts:133-136 | an accepted version is the body's UUID candidate and its change note, present iff given |
| Schemas.ParseProfileVersionAccepts | packages/core/src/schemas.ts:133-136 | every body naming a UUID candidate, with or without a textual note, parses to exactly those values |
| Schemas.ParseReview | packages/core/src/schemas.ts:138-140 | accepted iff the publish status is REVIEWED or DRAFT, and the value is the body's |
| Schemas.ParsePublish | packages/core/src/schemas.ts:142-144 | accepted iff the publish status is PUBLISHED |
| Schemas.ReviewAndPublishDisjoint | packages/core/src/schemas.ts:138-144 | no body is both a review and a publication: reviewing never sets PUBLISHED |
| Schemas.ParseResolution | packages/core/src/schemas.ts:150-153 | an accepted resolution is the body's status, RESOLVED or REJECTED, and its non-empty note; a missing or empty note is rejected |
| Schemas.ParseResolutionAccepts | packages/core/src/schemas.ts:150-153 | every body with status RESOLVED or REJECTED and a non-empty note is accepted with exactly those values |
| Schemas.ParsePage | packages/core/src/schemas.ts:159 | a query without paging reads as page 1 of size 20, and accepted values are in range |
| Schemas.Filter | packages/core/src/schemas.ts:160-164 | an absent filter reads as none; a present one is the query's value and passes its check |
| Schemas.ParseCandidateQuery | packages/core/src/schemas.ts:159-165 | an accepted query is the query string's paging and its own filter values, each absent iff not given, and meets the schema: UUID cycle, district and list filters, a known status |
| Schemas.ParseCandidateQueryAccepts | packages/core/src/schemas.ts:159-165 | every query string carrying a valid query's values parses to exactly that query |
| Schemas.ParseListQuery | packages/core/src/schemas.ts:167-171 | an accepted query is the query string's paging and its own filter values, each absent iff not given, and meets the schema: UUID cycle and district filters, a known list status |
| Schemas.ParseListQueryAccepts | packages/core/src/schemas.ts:167-171 | every query string carrying a valid query's values parses to exactly that query |
| Schemas.ParseDistrictQuery | packages/core/src/schemas.ts:173-175 | an accepted query is the paging `ParsePage` reads and the query string's own cycle filter, absent iff not given and otherwise a UUID |
| Schemas.ParseDistrictQueryAccepts | packages/core/src/schemas.ts:173-175 | every query string whose paging parses and whose cycle filter is absent or a UUID is accepted with those values |
| Schemas.EmptyCandidateQuery | packages/core/src/schemas.ts:159-165 | an empty query is page 1 of size 20 with no filters |
| Seed.SkipNonAlnum | backend/src/db/seed.ts:16 | a suffix of the input that starts with an ASCII letter or digit, or is empty |
| Seed.HyphenateRuns | backend/src/db/seed.ts:16 | only lower-case letters, digits and hyphens, never two hyphens in a row, empty iff the input is, starting with a hyphen iff the input starts with a non-alphanumeric |
| Seed.CreateSlug | backend/src/db/seed.ts:13-18 | only lower-case letters, digits and hyphens, no doubled hyphen, and no hyphen at either end |
| Seed.NoLatinNameGivesEmptySlug | backend/src/db/seed.ts:13-18 | a name with no ASCII letter or digit, such as an Arabic one, gets the empty slug |
| Seed.HyphenateRunsFixes | backend/src/db/seed.ts:16 | a string of slug characters whose every hyphen is followed by a letter or digit is unchanged |
| Seed.CreateSlugIdempotent | backend/src/db/seed.ts:13-18 | slugging a slug gives the same slug |
| Seed.ListCount | backend/src/db/seed.ts:219 | the number of lists created is the smaller of the template count and the district count |
| Seed.ListDistrict | backend/src/db/seed.ts:221 | a list's district index lies within the districts |
| Seed.ListsInDistinctDistricts | backend/src/db/seed.ts:219-221 | since fewer lists than districts are made, list `i` goes to district `i`: no two lists share a district |
| Seed.CandidateDistrict | backend/src/db/seed.ts:408 | a candidate's district index lies within the districts |
| Seed.CandidateList | backend/src/db/seed.ts:409 | candidate `i` is on list `i` when there is one, else on no list |
| Seed.CandidateInListDistrict | backend/src/db/seed.ts:408-409 | a candidate on a list stands in that list's district |
| Seed.CandidateSlug | backend/src/db/seed.ts:411 | the English name's slug, or the Arabic name's when the English name is empty |
| Seed.PointOf | backend/src/db/seed.ts:578-588 | a line gives a point iff it is not blank and its second and third comma-separated fields are non-empty; neither coordinate holds a comma |
| Seed.PointsOf | backend/src/db/seed.ts:577-589 | never more points than lines |
| Seed.PointsOfAppend | backend/src/db/seed.ts:577-589 | the points of two blocks of lines are the points of each, in order |
| Seed.PointsHaveCoordinates | backend/src/db/seed.ts:583 | every point has a non-empty latitude and longitude |
| Seed.CsvLines | backend/src/db/seed.ts:575 | splitting the trimmed file gives at least one line |
| Seed.ParseCsv | backend/src/db/seed.ts:575-589 | the loop yields `CsvPoints`: the points of every line after the header, in order |
| Seed.PointsPerDistrict | backend/src/db/seed.ts:635 | `ceil(points / districts)`: enough for every point, and the least such count when there are points |
| Seed.CenterNumber | backend/src/db/seed.ts:646 | the number in a centre's name is between 1 and 50 |
| Seed.CenterName | backend/src/db/seed.ts:643-650 | the three names are non-empty and end alike, in the centre's number |
| Seed.CenterAtBlock | backend/src/db/seed.ts:638-650 | centre `c` is point `c` and lies in the district whose block of `pointsPerDistrict` points holds it |
| Seed.BlocksCoverPoints | backend/src/db/seed.ts:635-640 | with `ceil(points / districts)` points per district, the districts' blocks together cover every point |
| Seed.DistrictBlocks | backend/src/db/seed.ts:635-640 | a centre is in district `k` iff its index is in that district's block, and every centre's district exists |
| Seed.CentersAppend | backend/src/db/seed.ts:638-683 | placing the next point in the current district `k` adds the centre that the block rule puts there |
| Seed.DistributeCenters | backend/src/db/seed.ts:635-685 | with districts, every point becomes one centre, in order, in its block's district; with none, no centre |
| VotesToSeats.Ids | frontend/src/components/electoral-laws/VotesToSeatsEngine.tsx:112-117 | the ids of the lists, one per list, in order |
| VotesToSeats.EliminatedIsComplement | frontend/src/components/electoral-laws/VotesToSeatsEngine.tsx:50-52 | a list qualifies iff it reaches the threshold, and is eliminated iff it does not qualify |
| VotesToSeats.QualifyingLists | frontend/src/components/electoral-laws/VotesToSeatsEngine.tsx:50-52 | the lists that reach the threshold, a subsequence of the input in its order |
| VotesToSeats.EliminatedLists | frontend/src/components/electoral-laws/VotesToSeatsEngine.tsx:112-114 | the lists below the threshold, a subsequence of the input in its order |
| VotesToSeats.Rem | frontend/src/components/electoral-laws/VotesToSeatsEngine.tsx:81-83 | the remainder of votes times seats over the qualifying total, exactly: below the total and completing the floor |
| VotesToSeats.FirstPass | frontend/src/components/electoral-laws/VotesToSeatsEngine.tsx:63-74 | every seat of the first pass goes to a qualifying list |
| VotesToSeats.Entries | frontend/src/components/electoral-laws/VotesToSeatsEngine.tsx:78-84 | one entry per qualifying list, holding its position and its remainder |
| VotesToSeats.InsertPermutation | frontend/src/components/electoral-laws/VotesToSeatsEngine.tsx:85 | inserting keeps every entry and adds the new one |
| VotesToSeats.ConsSorted | frontend/src/components/electoral-laws/VotesToSeatsEngine.tsx:85 | an entry placed before a sorted run that it precedes keeps it sorted |
| VotesToSeats.InsertSorted | frontend/src/components/electoral-laws/VotesToSeatsEngine.tsx:85 | inserting an earlier-positioned entry into a sorted run keeps it sorted |
| VotesToSeats.SortEntriesPermutation | frontend/src/components/electoral-laws/VotesToSeatsEngine.tsx:85 | the sort is a permutation of its input |
| VotesToSeats.SortEntriesSorted | frontend/src/components/electoral-laws/VotesToSeatsEngine.tsx:85 | the sort orders by larger remainder first and, being stable, by list order among equal remainders |
| VotesToSeats.Ranked | frontend/src/components/electoral-laws/VotesToSeatsEngine.tsx:78-85 | one entry per qualifying list, each naming a qualifying list |
| VotesToSeats.RankedPermutation | frontend/src/components/electoral-laws/VotesToSeatsEngine.tsx:78-85 | the ranking is a permutation of the entries |
| VotesToSeats.RankedEntry | frontend/src/components/electoral-laws/VotesToSeatsEngine.tsx:78-85 | each ranked entry carries its own list's remainder |
| VotesToSeats.RankedSorted | frontend/src/components/electoral-laws/VotesToSeatsEngine.tsx:85 | the ranking is sorted and names each list at most once |
| VotesToSeats.RankedCovers | frontend/src/components/electoral-laws/VotesToSeatsEngine.tsx:78-85 | every qualifying list appears in the ranking |
| VotesToSeats.SecondPass | frontend/src/components/electoral-laws/VotesToSeatsEngine.tsx:87-93 | as many extra seats as remain, but no more than there are lists, to the top of the ranking in order |
| VotesToSeats.Owners | frontend/src/components/electoral-laws/VotesToSeatsEngine.tsx:49-96 | every seat goes to a qualifying list |
| VotesToSeats.SeatsOf | frontend/src/components/electoral-laws/VotesToSeatsEngine.tsx:68-72 | seat `j` carries its owner's id and colour and the index `j` |
| VotesToSeats.SeatsOfSnoc | frontend/src/components/electoral-laws/VotesToSeatsEngine.tsx:68-72 | one more owner appends one seat with the next index |
| VotesToSeats.AllocateFloors | frontend/src/components/electoral-laws/VotesToSeatsEngine.tsx:59-74 | the first-pass loops produce the seats of `FirstPass` |
| VotesToSeats.AllocateRemainders | frontend/src/components/electoral-laws/VotesToSeatsEngine.tsx:77-93 | the second loop appends the seats of `SecondPass` for the seats still unallocated |
| VotesToSeats.ExtraSeatStep | frontend/src/components/electoral-laws/VotesToSeatsEngine.tsx:87-93 | one iteration of the second loop appends the next ranked list's seat |
| VotesToSeats.SecondPassSnoc | frontend/src/components/electoral-laws/VotesToSeatsEngine.tsx:87 | one more remaining seat takes the next ranked list |
| VotesToSeats.SecondPassSame | frontend/src/components/electoral-laws/VotesToSeatsEngine.tsx:87 | the loop stops at the smaller of the remaining seats and the list count |
| VotesToSeats.CalculateSeats | frontend/src/components/electoral-laws/VotesToSeatsEngine.tsx:49-96 | `calculateSeats` returns `Allocation`, whose properties are the lemmas below |
| VotesToSeats.SeatsGoToQualifyingLists | frontend/src/components/electoral-laws/VotesToSeatsEngine.tsx:59-93 | seat `j` has index `j` and belongs to a list that reached the threshold |
| VotesToSeats.NoQualifyingListNoSeats | frontend/src/components/electoral-laws/VotesToSeatsEngine.tsx:50-57 | when no list reaches the threshold, no seat is allocated |
| VotesToSeats.FirstPassLength | frontend/src/components/electoral-laws/VotesToSeatsEngine.tsx:63-74 | the first pass hands out the sum of the floors |
| VotesToSeats.QuotaIdentity | frontend/src/components/electoral-laws/VotesToSeatsEngine.tsx:63-84 | votes times seats equals the total times the floors plus the remainders, and the remainders sum to less than one total per list |
| VotesToSeats.RemainingBelowListCount | frontend/src/components/electoral-laws/VotesToSeatsEngine.tsx:77 | the seats left after the first pass are fewer than the qualifying lists |
| VotesToSeats.AllSeatsAllocated | frontend/src/components/electoral-laws/VotesToSeatsEngine.tsx:49-96 | when some list qualifies with votes, exactly the district's seat count is allocated |
| VotesToSeats.RepeatCount | frontend/src/components/electoral-laws/VotesToSeatsEngine.tsx:67-73 | a list's floor run gives it exactly that many seats |
| VotesToSeats.FirstPassCount | frontend/src/components/electoral-laws/VotesToSeatsEngine.tsx:63-74 | after the first pass each list holds exactly its floor |
| VotesToSeats.SecondPassAtMostOnce | frontend/src/components/electoral-laws/VotesToSeatsEngine.tsx:87-93 | the second pass gives each list at most one seat |
| VotesToSeats.FloorOrOneMore | frontend/src/components/electoral-laws/VotesToSeatsEngine.tsx:49-96 | quota property: each list gets its floor or one seat more |
| VotesToSeats.ExtraSeatsToLargestRemainders | frontend/src/components/electoral-laws/VotesToSeatsEngine.tsx:78-93 | a list given an extra seat has a larger remainder than one without, or an equal one and comes earlier |
| VotesToSeats.Simulation.constructor | frontend/src/components/electoral-laws/VotesToSeatsEngine.tsx:42-46 | idle at phase 0 with nothing shown |
| VotesToSeats.Simulation.Run | frontend/src/components/electoral-laws/VotesToSeatsEngine.tsx:99-133 | ignored while animating; otherwise ends at phase 3, not animating, with the eliminated lists, the qualifying lists highlighted and `Allocation` appended to the seats already shown, as written |
| VotesToSeats.Simulation.ShowSeats | frontend/src/components/electoral-laws/VotesToSeatsEngine.tsx:126-129 | the allocation's seats are appended, in order, to those already shown; nothing else changes |
| VotesToSeats.Simulation.Reset | frontend/src/components/electoral-laws/VotesToSeatsEngine.tsx:135-141 | back to phase 0, not animating, with nothing shown |
| VotesToSeats.SeatCountAppend | frontend/src/components/electoral-laws/VotesToSeatsEngine.tsx:128 | a list's seat count over two runs of seats is the sum of the two |
| VotesToSeats.SeatsAfterRunAsWritten | frontend/src/components/electoral-laws/VotesToSeatsEngine.tsx:128 | as written, a run adds its seats to those already shown |
| VotesToSeats.SeatsAfterRun | frontend/src/components/electoral-laws/VotesToSeatsEngine.tsx:123-129 | as intended, a run shows exactly its allocation |
| VotesToSeats.SecondRunDoublesLegend | frontend/src/components/electoral-laws/VotesToSeatsEngine.tsx:128 | as written, a second run without a reset doubles every list's seat count |
| VotesToSeats.RunTwiceSameAsOnce | frontend/src/components/electoral-laws/VotesToSeatsEngine.tsx:123-129 | as intended, a second run shows the same seats as the first |
| CandidatesGrid.FilterCandidates | frontend/src/components/sections/filterable-candidates-grid.tsx:46-89 | never more candidates than given, and all of them when no filter is set |
| CandidatesGrid.FilterCandidatesMembers | frontend/src/components/sections/filterable-candidates-grid.tsx:49-86 | a candidate is kept iff it was given and meets every set filter: district, list and the lowered search over its nine names |
| CandidatesGrid.FilterCandidatesOrdered | frontend/src/components/sections/filterable-candidates-grid.tsx:47-88 | the kept candidates are a subsequence of the given ones, in their order |
| CandidatesGrid.NoDistrictDropped | frontend/src/components/sections/filterable-candidates-grid.tsx:49-53 | with a district filter, a candidate without a district is dropped |
| CandidatesGrid.MissingRefNeverMatches | frontend/src/components/sections/filterable-candidates-grid.tsx:67-72 | a missing district or list reads as "" and never matches a non-empty search |
| CandidatesGrid.SearchIgnoresCase | frontend/src/components/sections/filterable-candidates-grid.tsx:62 | a search and its lowered form keep the same candidates |
| DistrictsList.YearText | frontend/src/components/sections/filterable-districts-list.tsx:44 | empty iff the district has no cycle year |
| DistrictsList.FilterDistricts | frontend/src/components/sections/filterable-districts-list.tsx:36-53 | never more districts than given, and all of them for the empty query |
| DistrictsList.FilterDistrictsMembers | frontend/src/components/sections/filterable-districts-list.tsx:37-51 | a district is kept iff the query is empty or its lowered form occurs in a lowered name or the year |
| DistrictsList.FilterDistrictsOrdered | frontend/src/components/sections/filterable-districts-list.tsx:40 | the kept districts keep their order |
| DistrictsList.MatchesPrefix | frontend/src/components/sections/filterable-districts-list.tsx:46-51 | a district matching a longer query matches every prefix of it |
| DistrictsList.NarrowingQueryNarrowsResult | frontend/src/components/sections/filterable-districts-list.tsx:36-53 | typing more characters only removes districts from the result |
| DistrictsList.EmptyNotice | frontend/src/components/sections/filterable-districts-list.tsx:61-68 | a notice is shown iff nothing matches: the given message when non-empty, else "No districts found" |
| ListsList.FilterLists | apps/web/src/components/sections/filterable-lists-list.tsx:42-71 | never more lists than given, and all of them when both filters are empty |
| ListsList.FilterListsMembers | apps/web/src/components/sections/filterable-lists-list.tsx:45-68 | a list is kept iff it was given, is in the chosen district when one is chosen, and matches the lowered search over its and its district's names when one is typed |
| ListsList.FilterListsOrdered | apps/web/src/components/sections/filterable-lists-list.tsx:43-70 | the kept lists keep their order |
| ListsList.EmptyNotice | apps/web/src/components/sections/filterable-lists-list.tsx:73-75 | a notice is shown iff nothing matches: the given message when non-empty, else "No lists found" |
| CandidateFilters.FilteredLists | apps/web/src/components/filters/candidate-filters.tsx:83-88 | every list while no district is chosen, never more than given |
| CandidateFilters.FilteredListsMembers | apps/web/src/components/filters/candidate-filters.tsx:83-88 | with a district chosen, a list is offered iff its `districtId` or its district's id is that district |
| CandidateFilters.ListOptions | apps/web/src/components/filters/candidate-filters.tsx:112-122 | the "All Lists" entry with the empty value, then one option per offered list, valued by its id, in order |
| CandidateFilters.ListOptionsInDistrict | apps/web/src/components/filters/candidate-filters.tsx:83-122 | with a district chosen, every list option after the first is a list of that district |
| CandidateFilters.Emit | apps/web/src/components/filters/candidate-filters.tsx:50-54 | each field is handed on when non-empty and as `undefined` otherwise |
| CandidateFilters.EmittedFiltersGrid | apps/web/src/components/filters/candidate-filters.tsx:47-80 | the grid keeps a candidate under the emitted filters iff it meets each non-empty panel field |
| CandidateFilters.ActiveIffFiltering | apps/web/src/components/filters/candidate-filters.tsx:90 | "clear" is offered iff some filter is handed on |
| CandidateFilters.Panel.constructor | apps/web/src/components/filters/candidate-filters.tsx:43-45 | every field starts empty and nothing has been handed on |
| CandidateFilters.Panel.DistrictChange | apps/web/src/components/filters/candidate-filters.tsx:47-55 | sets the district, clears the list, keeps the search, and hands on the district and search without a list |
| CandidateFilters.Panel.ListChange | apps/web/src/components/filters/candidate-filters.tsx:57-64 | sets the list, keeps district and search, and hands on all three |
| CandidateFilters.Panel.SearchChange | apps/web/src/components/filters/candidate-filters.tsx:66-73 | sets the search, keeps district and list, and hands on all three |
| CandidateFilters.Panel.ClearFilters | apps/web/src/components/filters/candidate-filters.tsx:75-80 | empties every field and hands on no filter |
| ListFilters.Emit | frontend/src/components/filters/list-filters.tsx:28 | each field is handed on when non-empty and as `undefined` otherwise |
| ListFilters.EmittedFiltersLists | frontend/src/components/filters/list-filters.tsx:26-34 | the lists page filters by the emitted values exactly as by the panel's fields |
| ListFilters.HasActiveFilters | frontend/src/components/filters/list-filters.tsx:42 | "clear" is offered iff the panel hands on some filter |
| ListFilters.Panel.constructor | frontend/src/components/filters/list-filters.tsx:23-24 | both fields start empty and nothing has been handed on |
| ListFilters.Panel.SearchChange | frontend/src/components/filters/list-filters.tsx:26-29 | sets the search, keeps the district, and hands on both |
| ListFilters.Panel.DistrictChange | frontend/src/components/filters/list-filters.tsx:31-34 | sets the district, keeps the search, and hands on both |
| ListFilters.Panel.ClearFilters | frontend/src/components/filters/list-filters.tsx:36-40 | empties both fields and hands on no filter |
| CustomSelect.KeyStep | apps/web/src/components/ui/custom-select.tsx:50-80 | a closed select ignores keys; the arrows keep an in-range highlight in range; Enter chooses iff open with a highlight and then closes; the select only closes, by Escape or a choice |
| CustomSelect.ArrowUpUndoesArrowDown | apps/web/src/components/ui/custom-select.tsx:55-63 | ArrowUp after ArrowDown returns to the same option when not on the last |
| CustomSelect.ArrowsStopAtEnds | apps/web/src/components/ui/custom-select.tsx:57-63 | ArrowUp stays on the first option or on no highlight, and ArrowDown stays on the last |
| CustomSelect.DisplayLabel | apps/web/src/components/ui/custom-select.tsx:121 | the placeholder when no option has the value; any other text shown is the label of an option with that value |
| CustomSelect.DisplayLabelOfSelected | apps/web/src/components/ui/custom-select.tsx:35 | the trigger shows the first option with the value, when its label is non-empty |
| CustomSelect.EnterOutcomeOf | apps/web/src/components/ui/custom-select.tsx:65-71 | Enter reads past the end iff the highlight is at or beyond the option count, does nothing iff it is negative, and otherwise chooses that option's value |
| CustomSelect.EnterSafeInRange | apps/web/src/components/ui/custom-select.tsx:65-71 | with the highlight in range, Enter never reads past the end |
| CustomSelect.HighlightAfterNewOptionsAsWritten | apps/web/src/components/ui/custom-select.tsx:31 | as written, the highlight survives new options unchanged |
| CustomSelect.StaleHighlightReadsPastEnd | apps/web/src/components/ui/custom-select.tsx:65-71 | as written, a highlight on option 5 of six survives a switch to two options, and Enter then reads past the end, even after ArrowUp |
| CustomSelect.HighlightAfterNewOptions | apps/web/src/components/ui/custom-select.tsx:31 | as intended: a highlight still naming an option is kept, any other is cleared, so the highlight is always in range |
| CustomSelect.Select.constructor | apps/web/src/components/ui/custom-select.tsx:21-31 | closed, with no highlight and nothing chosen |
| CustomSelect.Select.ClickTrigger | apps/web/src/components/ui/custom-select.tsx:102 | toggles the list unless disabled; nothing else changes |
| CustomSelect.Select.ClickOutside | apps/web/src/components/ui/custom-select.tsx:38-47 | closes the list and keeps the highlight |
| CustomSelect.Select.KeyDown | apps/web/src/components/ui/custom-select.tsx:50-80 | the handler throws iff the select is open, the key is Enter and the highlight is past the last option, and then nothing changes; otherwise the new open state and highlight are `KeyStep`'s and a choice hands the highlighted option's value to the parent; from an in-range highlight it never throws and stays in range |
| CustomSelect.Select.Hover | apps/web/src/components/ui/custom-select.tsx:158 | the hovered option becomes the highlight |
| CustomSelect.Select.ClickOption | apps/web/src/components/ui/custom-select.tsx:92-95 | on a shown list, hands the clicked option's value to the parent and closes the list |
| CustomSelect.Select.SetProps | apps/web/src/components/ui/custom-select.tsx:21-31 | new props replace the old and the highlight is kept as it was, so it stays in range iff it names one of the new options |
| CustomSelect.Select.Label | apps/web/src/components/ui/custom-select.tsx:121 | the placeholder when no option has the current value |
| Carousel.Mirror | frontend/src/components/electoral-laws/VotingDayCarousel.tsx:79-96 | swaps next and previous and keeps "stay" |
| Carousel.SwipeMove | frontend/src/components/electoral-laws/VotingDayCarousel.tsx:75-87 | a swipe of at most 50 pixels either way does nothing; left to right, a leftward swipe of more than 50 goes to the next card |
| Carousel.SwipeRtlMirrors | frontend/src/components/electoral-laws/VotingDayCarousel.tsx:80-86 | on Arabic pages every swipe does the opposite of the same swipe on other pages |
| Carousel.KeyMove | frontend/src/components/electoral-laws/VotingDayCarousel.tsx:91-97 | only the left and right arrows move the carousel |
| Carousel.KeyMoveRtlMirrors | frontend/src/components/electoral-laws/VotingDayCarousel.tsx:92-96 | switching the page direction mirrors what every key does |
| Carousel.ArrowsAreMirrors | frontend/src/components/electoral-laws/VotingDayCarousel.tsx:92-96 | the left arrow does the opposite of the right arrow, and what the right arrow does on the other direction |
| Carousel.GoToNext | frontend/src/components/electoral-laws/VotingDayCarousel.tsx:47-52 | forward one card with direction 1 unless on the last card, where nothing changes; the index stays in range |
| Carousel.GoToPrev | frontend/src/components/electoral-laws/VotingDayCarousel.tsx:54-59 | back one card with direction -1 unless on the first card, where nothing changes |
| Carousel.PrevUndoesNext | frontend/src/components/electoral-laws/VotingDayCarousel.tsx:47-59 | previous after next, and next after previous, return to the same card when the first move happened |
| Carousel.GoToPrevInRange | frontend/src/components/electoral-laws/VotingDayCarousel.tsx:54-59 | going back keeps the index in range |
| Carousel.GoToIndex | frontend/src/components/electoral-laws/VotingDayCarousel.tsx:61-64 | shows the chosen card, direction 1 iff it lies after the current one and -1 otherwise, including the current card itself |
| Carousel.Apply | frontend/src/components/electoral-laws/VotingDayCarousel.tsx:47-59 | "stay" changes nothing, and every move keeps the index in range |
| Carousel.DisabledIffNoMove | frontend/src/components/electoral-laws/VotingDayCarousel.tsx:200-241 | the previous and next buttons are disabled exactly where pressing them would change nothing |
| Carousel.Deck.constructor | frontend/src/components/electoral-laws/VotingDayCarousel.tsx:39-42 | the first card, no direction, both touch positions 0 |
| Carousel.Deck.Go | frontend/src/components/electoral-laws/VotingDayCarousel.tsx:47-59 | the view becomes `Apply` of the move; the touch positions stay |
| Carousel.Deck.ClickDot | frontend/src/components/electoral-laws/VotingDayCarousel.tsx:224 | the view becomes `GoToIndex` of the dot |
| Carousel.Deck.TouchStart | frontend/src/components/electoral-laws/VotingDayCarousel.tsx:67-69 | records where the touch began; the view stays |
| Carousel.Deck.TouchMove | frontend/src/components/electoral-laws/VotingDayCarousel.tsx:71-73 | records where the touch is; the view stays |
| Carousel.Deck.TouchEnd | frontend/src/components/electoral-laws/VotingDayCarousel.tsx:75-87 | the view moves as `SwipeMove` of start minus end decides |
| Carousel.Deck.KeyDown | frontend/src/components/electoral-laws/VotingDayCarousel.tsx:90-100 | the view moves as `KeyMove` decides for the page's direction |
| NewsPreview.TimeAgo | frontend/src/components/news-preview.tsx:20-31 | "just now" below a minute (future times included), else whole minutes below an hour, whole hours below a day, else whole days; each count is the floor of the difference over its unit |
| NewsPreview.TimeAgoMonotone | frontend/src/components/news-preview.tsx:20-31 | an older item never shows a smaller bucket or a smaller count within the same bucket |
| NewsPreview.Latest | frontend/src/components/news-preview.tsx:12 | the first three items, or all when fewer |
| NewsPreview.CategoryStyleOf | frontend/src/components/news-preview.tsx:34-42 | the general style iff the category is not announcement, update or alert |
| NewsPreview.LocalizedText | frontend/src/components/news-preview.tsx:15-17 | the locale's entry when non-empty, else the English one |
| NewsPreview.NoArabicFallback | frontend/src/components/news-preview.tsx:15-17 | unlike `getLocalized`, the preview does not fall back to Arabic |
| NewsPreview.ItemLink | frontend/src/components/news-preview.tsx:90-98 | a link starting with "http" is kept and opens in a new tab; any other is prefixed with `/<locale>` and opens in place |
| NewsPreview.InternalLinkLocal | frontend/src/components/news-preview.tsx:90-91 | a prefixed internal link starts with "/" and so is never taken for an external one |
| CentersMap.ClusterBadgeFor | frontend/src/components/electoral-centers-map.tsx:61-100 | one of five sizes, 36 iff fewer than 10 centres and 56 iff at least 100; font 14 pixels iff at least 100 centres, else 16 |
| CentersMap.ClusterSizeMonotone | frontend/src/components/electoral-centers-map.tsx:64-84 | a cluster with more centres is never drawn smaller |
| CentersMap.ClusterBands | frontend/src/components/electoral-centers-map.tsx:64-84 | the badge grows at 10, 25, 50 and 100 centres |
| CentersMap.IconGeometryFor | frontend/src/components/electoral-centers-map.tsx:104-107 | the icon is square with the badge's size and is anchored at its centre |
| CentersMap.ParseStyle | frontend/src/components/electoral-centers-map.tsx:36-45 | a recognised name is the style's own name |
| CentersMap.StyleNameRoundTrip | frontend/src/components/electoral-centers-map.tsx:36-45 | every style's name reads back as that style |
| CentersMap.TileLayerStyle | frontend/src/components/electoral-centers-map.tsx:182 | OpenStreetMap tiles when no style is given, else the given style |
| CentersMap.ComponentStyle | frontend/src/components/electoral-centers-map.tsx:230 | the map component defaults to the humanitarian style |
| CentersMap.MapNeverUsesTileDefault | frontend/src/components/electoral-centers-map.tsx:295-296 | the component always passes a style, so a map without one shows the humanitarian tiles, not OpenStreetMap's |
| Navbar.NavLinks | frontend/src/components/navbar.tsx:44-50 | five links, all under `/<locale>/`, with distinct targets |
| Navbar.SiblingPathInactive | frontend/src/components/navbar.tsx:72 | a path that extends a link's path without a `/` does not activate it |
| Navbar.SubpathActive | frontend/src/components/navbar.tsx:72 | every path below a link's path activates it |
| Navbar.ActivePathAgrees | frontend/src/components/navbar.tsx:72 | an active link's path is a prefix of the current path |
| Navbar.AtMostOneActive | frontend/src/components/navbar.tsx:44-72 | no path activates two of the five links |
| Navbar.LocaleLabel | frontend/src/components/navbar.tsx:115 | an unsupported locale's label is its upper-cased code, of the same length |
| Navbar.SupportedLabels | frontend/src/components/navbar.tsx:9-13 | the three supported locales show "ع", "EN" and "FR" |
| Navbar.Bar.constructor | frontend/src/components/navbar.tsx:19 | the menu starts closed, with scrolling unlocked |
| Navbar.Bar.SyncOverflow | frontend/src/components/navbar.tsx:33-42 | the body's overflow is "hidden" exactly while the menu is open |
| Navbar.Bar.ToggleMenu | frontend/src/components/navbar.tsx:123 | the menu button flips the menu, and scrolling follows |
| Navbar.Bar.ClickLink | frontend/src/components/navbar.tsx:174 | a link click closes the menu and unlocks scrolling |
| Navbar.Bar.Resize | frontend/src/components/navbar.tsx:22-30 | a resize to 768 pixels or wider closes the menu; a narrower one leaves it |
| RulesCards.VerdictIgnoresCase | frontend/src/components/electoral-laws/RulesCardsSection.tsx:23-26 | a verdict and its lowered form are judged alike |
| RulesCards.NotAllowedRefused | frontend/src/components/electoral-laws/RulesCardsSection.tsx:23-26 | a verdict mentioning "not allowed" also mentions "allowed" and is refused; one not mentioning "allowed" is refused |
| RulesCards.VerdictExamples | frontend/src/components/electoral-laws/RulesCardsSection.tsx:23-26 | "Allowed" is accepted and "Not Allowed" refused |
| RulesCards.RuleIcon | frontend/src/components/electoral-laws/RulesCardsSection.tsx:16-20 | the megaphone and the helping hands for their keys only; every other key, known or not, gets the camera |
| PlaceholderPhoto.ToInt32 | apps/web/src/components/placeholder-photo.tsx:18 | ECMAScript's ToInt32: in the signed 32-bit range, equal to its input modulo 2^32, and the identity inside that range |
| PlaceholderPhoto.ShiftLeft5 | apps/web/src/components/placeholder-photo.tsx:18 | `acc << 5` is a signed 32-bit value |
| PlaceholderPhoto.HashBound | apps/web/src/components/placeholder-photo.tsx:17-19 | each character moves the hash by at most 2^31 plus a character code |
| PlaceholderPhoto.HashExact | apps/web/src/components/placeholder-photo.tsx:17-19 | for seeds up to four million characters the hash stays below 2^53, so the double arithmetic is exact |
| PlaceholderPhoto.JsRem | apps/web/src/components/placeholder-photo.tsx:20 | JavaScript's `%`: below the divisor in size, the Euclidean remainder for non-negative dividends, and minus that of the negated dividend for negative ones |
| PlaceholderPhoto.Hue | apps/web/src/components/placeholder-photo.tsx:20 | between 0 and 359, the hash's size modulo 360 |
| PlaceholderPhoto.HueExamples | apps/web/src/components/placeholder-photo.tsx:17-20 | "a" hashes to 97 with hue 97; "ab" hashes to 3105 with hue 225 |
| PlaceholderPhoto.SeparatorsAreDashUnderscoreSpace | apps/web/src/components/placeholder-photo.tsx:42 | the separators are `-`, `_` and JavaScript white space |
| PlaceholderPhoto.Initial | apps/web/src/components/placeholder-photo.tsx:43 | the upper-cased first character, or nothing for an empty part |
| PlaceholderPhoto.Initials | apps/web/src/components/placeholder-photo.tsx:41-45 | at most two characters |
| PlaceholderPhoto.InitialsOfParts | apps/web/src/components/placeholder-photo.tsx:41-45 | the initial of the first part, followed by that of the second part when there is one |
| PlaceholderPhoto.InitialsOneWord | apps/web/src/components/placeholder-photo.tsx:41-45 | a seed without separators gives its upper-cased first character |
| PlaceholderPhoto.InitialsTwoWords | apps/web/src/components/placeholder-photo.tsx:41-45 | two words give both upper-cased first characters |
| PlaceholderPhoto.InitialsLeadingSeparator | apps/web/src/components/placeholder-photo.tsx:41-45 | a leading separator makes an empty first part that takes a place, so only one initial shows |
| PlaceholderPhoto.FirstFieldOfWord | apps/web/src/components/placeholder-photo.tsx:42 | the first part of a word followed by anything starts with the word's first character |
| PlaceholderPhoto.Render | apps/web/src/components/placeholder-photo.tsx:15-75 | a disc iff GEOMETRIC, lettering iff INITIALS, both in the seed's hue; the lettering is the initials, or "?" when there are none; every other style is the silhouette |
| PlaceholderPhoto.OnlySeparatorsShowQuestionMark | apps/web/src/components/placeholder-photo.tsx:41-56 | a seed made only of separators has no initials and shows "?" |
| PlaceholderPhoto.EmptyParts | apps/web/src/components/placeholder-photo.tsx:42 | splitting only separators gives only empty parts |
| CentersPage.FilterCenters | frontend/src/components/sections/centers-page-content.tsx:60-62 | every centre when no district is chosen, never more than given |
| CentersPage.FilterCentersMembers | frontend/src/components/sections/centers-page-content.tsx:60-62 | a centre is shown iff given and, when a district is chosen, in that district |
| CentersPage.FilterCentersOrdered | frontend/src/components/sections/centers-page-content.tsx:61 | shown centres keep their order |
| CentersPage.GetContent | frontend/src/components/sections/centers-page-content.tsx:165-169 | the Arabic text for Arabic, the French for French, the English otherwise |
| CentersPage.GetContentIsEntry | frontend/src/components/sections/centers-page-content.tsx:165-169 | the locale's own entry with no fallback, unlike `getLocalized`, which falls back for an empty French entry |
| CentersPage.AllDistrictsLabel | frontend/src/components/sections/centers-page-content.tsx:173 | never empty |
| CentersPage.DistrictOptions | frontend/src/components/sections/centers-page-content.tsx:172-185 | "All Districts" with the empty value first, then one option per district in order, valued by its id and labelled by `getLocalized` of its names |
| CentersPage.NoChoiceShowsAllDistricts | frontend/src/components/sections/centers-page-content.tsx:172-185 | with no district chosen the select shows "All Districts", not its placeholder |
| CentersPage.ChosenOptionFilters | frontend/src/components/sections/centers-page-content.tsx:60-62 | choosing a district's option shows exactly the given centres in that district |
| CentersPage.CountLabel | frontend/src/components/sections/centers-page-content.tsx:299-303 | never empty |
| CentersPage.CountLabelSingularIffOne | frontend/src/components/sections/centers-page-content.tsx:300-302 | in English and French the label ends in "s" iff the count is not one; the Arabic label never changes form |
| CentersPage.LocationPanel.constructor | frontend/src/components/sections/centers-page-content.tsx:53-55 | no request, no position, no error |
| CentersPage.LocationPanel.RequestLocation | frontend/src/components/sections/centers-page-content.tsx:65-85 | ignored while a request is in flight; without geolocation only the "not supported" error is set; otherwise a request starts and the error clears; the position found so far stays |
| CentersPage.LocationPanel.LocationFound | frontend/src/components/sections/centers-page-content.tsx:94-104 | records the position, ends the request and clears the error |
| CentersPage.LocationPanel.LocationFailed | frontend/src/components/sections/centers-page-content.tsx:105-152 | ends the request with the failure's message; an earlier position stays |
| CentersPage.LocationPanel.ClearLocation | frontend/src/components/sections/centers-page-content.tsx:274-277 | forgets the position and the error; a request in flight goes on |

## Left out

- The Telegram client, `asyncio.sleep` and its 5 s and 10 s waits, signal handling, `.env` loading and session files are not modelled. The client is the `Backend` parameter and a wait is one more request number.
- ScrapeManyChannel.Collect: the retry loop has no bound in the scripts. The model bounds it with `fuel`, so a backend that fails forever ends with the fuel, not by running on.
- ScrapeOneChannel.CollectAll: bounded by the same `fuel`, for the same reason.
- BackendAdapter.BodyOf: a form-encoded body is kept as its raw text. The `URLSearchParams` decoding into an object (splitting on `&` and `=`, percent- and `+`-decoding, a later duplicate key winning) is not modelled; the model states only which content type yields a form body.
- The JSON text of the output and checkpoint files is not modelled. A file holds the record list or the channel list as values.
- Prisma and the database are not modelled. The user table, the audit-log table and the seed script's writes are values or parameters, and `lastLoginAt` is not updated.
- bcrypt, `randomBytes` and the `cookie` library's parse and serialize are parameters. The password check is a predicate, the session id is given, and the cookie header arrives parsed.
- The CSRF helpers and the NextAuth configuration are not part of this model.
- The `setInterval` timers that run the rate-limit and session sweeps are left to the caller. `RateLimit.RateLimiter.Sweep` and `Auth.SessionStore.Sweep` are methods the caller invokes.
- The adapter's 5 ms polling for the end of a response and its 30 s timeout are not modelled. Neither is the hand-off to the serverless platform.
- VotesToSeats.Simulation.Run: the animation's `setTimeout` steps are not modelled. A run goes to completion in one call, so a state half-way through an animation is not modelled.
- Floating point is not modelled:
  - the quota of `calculateSeats` is computed exactly on integers, so a tie that doubles would break by rounding is broken here by list order;
  - the seed's coordinates are kept as text, and its random addresses are left out;
  - the placeholder's sizes and layout are left out;
  - the placeholder hash is exact only below 2^53, which `PlaceholderPhoto.HashExact` shows covers any seed up to four million characters.
- Zod's own checks (UUID, email, URL parsing, date coercion, number coercion) are parameters of `Schemas` and `Validation`. `emailSchema`, `uuidSchema`, `dateSchema` and `optionalMultilingualTextSchema` are abstract in the same way.
- Schemas: a rejection is `None`, without Zod's list of issues.
- Case mapping (`toLowerCase`, `toUpperCase`) is modelled for ASCII letters only. Other characters are kept as they are.
- Strings are sequences of characters, not of UTF-16 code units, so `length` and `charCodeAt` differ from JavaScript for characters outside the Basic Multilingual Plane.
- PlaceholderPhoto.Initials: JavaScript upper-cases some letters to two characters (`"ß"` becomes `"SS"`), which would give up to four characters. The model keeps one character per initial.
- NewsPreview.CategoryStyleOf: the category lookup reads a plain object, so a category named after an inherited property (such as `"constructor"`) is not a miss in JavaScript. The model treats every category outside the three known ones as unknown.
- ApiUtils.TotalPages requires a page size of at least 1. The validator enforces that upstream; with 0 JavaScript would give `Infinity` or `NaN`.
- CentersPage.MessageText: the texts of the location errors are kept per kind and locale. Nothing is proved about them beyond their selection by `getContent`.
- CentersPage: the page's `locale` prop and the `currentLocale` it derives are one value. The catch branch around the geolocation call cannot be reached and is not modelled. The transition flag `isPending` is a parameter.
- CentersMap.TileUrl: the tile table is a constant. The attribution texts and the cluster colours are constants with no property beyond their band.
- CandidateFilters.ListSelectDisabled is a predicate with no contract of its own.
- Rendering, styling, icons, animation and routing components that decide nothing are not modelled.
- The `apps/web` copies of components that also exist under `frontend` are modelled once. So are the compiled `shared/types.js` and the `apps/web` audit helper, which lacks the `x-real-ip` fallback.
- The favicon generator and the front ends' API fetch client are not part of this model. Neither is the `apps/web` middleware's own copy of the security headers (packages/core/src/constants.ts:48) with its `CSP_BASELINE` (packages/core/src/constants.ts:57); `Router.SecurityHeaders` models the backend's copy in shared/constants.js.

## Findings

| source | as written | input that shows it | evidently intended | confidence | as-written member | corrected member |
|---|---|---|---|---|---|---|
| apps/web/src/components/ui/custom-select.tsx:65-71 | The highlighted index survives a change of the option list, and Enter reads `options[highlightedIndex]` with no bound check. | In the candidate filter's list select, highlight option 5 of six. Then change the district so the select has two options, reopen it and press Enter: `options[5]` is undefined and reading `.value` throws. | A highlight that no longer names an option is cleared, so Enter does nothing. | medium, not executed | CustomSelect.StaleHighlightReadsPastEnd | CustomSelect.HighlightAfterNewOptions |
| frontend/src/components/electoral-laws/VotesToSeatsEngine.tsx:128 | Each run appends its seats to the seats already shown. Only Reset empties them, and the run button is disabled only while animating. | Press Simulate, wait for the animation to end, then press Simulate again without Reset: every list shows twice its seats, 16 seats for 8. | A run shows exactly its own allocation. | high, not executed | VotesToSeats.SecondRunDoublesLegend | VotesToSeats.RunTwiceSameAsOnce |
