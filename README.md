# parkingManager client core in Dafny

A model of the client-side core of the parkingManager web application. That
application is a Vue + TypeScript front end for managing parking lots, zones
and spots. The model covers:

- **The session store** (`src/utils/auth.ts`). It holds an in-memory token,
  user profile and logged-in flag. It persists them in two key/value tiers:
  `localStorage`, which is durable, and `sessionStorage`, which lasts only
  for the browser session. `setAuth` clears both tiers and writes one.
  `clearAuth` wipes both. `initializeAuth` reloads the state and makes the
  flag agree with the presence of a token.
- **The request pipeline** (`src/api/instance.ts`). This covers the bearer
  header, the classification of the `{code, message, data}` envelope and of
  HTTP errors, and `handleUnauthorized`, which ends the session and sends
  the user to `/auth`.
- **The login hook** (`src/hooks/useAuth.ts`). It parses three shapes of
  login reply and decides success or failure. Every failure clears the
  session. It also covers logout and the `checkAuthAndRedirect` decision.
- **Pagination** (`src/hooks/usePagination.ts`). An integer state machine
  whose `totalPages` is JavaScript's `Math.ceil(total / pageSize)`,
  including the infinite and NaN results when `pageSize` is 0.
- **Spot helpers** (`src/utils/parkingUtils.ts`). Extracting a lot
  identifier from a spot number, attaching lot ids to spot options, and
  filtering options by lot.
- **The spot monitor** (`src/hooks/useSpotMonitor.ts`). Counting by
  status, grouping by lot and zone, the selection state, the queries a
  refresh issues and the auto-refresh interval handle.
- **Statistics** (`src/hooks/useStatistics.ts`). The totals, per-lot
  utilisation, counts by spot type and the hourly distribution of entries.

Layout:

- `common.dfy`: `Option`, JavaScript truthiness, navigation effects.
- `constants.dfy`: the values of `src/constants/index.ts`.
- `types.dfy`: the entities.
- `seqs.dfy`: the order-preserving filter and count behind every
  `filter(...)` and `filter(...).length`, with their lemmas.
- One file per core source file.

Imperative source code is modelled imperatively:

- mutable objects are classes with `modifies` clauses;
- storage tiers are `map<string,string>` fields;
- the `forEach` loops are `while` loops with invariants.

Where a method computes something a function can state (the storage tier
after a login or a clear, the headers of a request, the navigation of
`handleUnauthorized`, a response's outcome), its contract is tied to that
function, and the facts are proved about the function. The remaining methods
(`HandleLogout`, `CheckAuthAndRedirect`, the pagination and monitor
handlers) state their results and new state directly.

Modelling conventions:

- JavaScript `null`/`undefined` is `None`.
- A falsy string is `""`, and a falsy id is `0`.
- Navigation is returned as a sequence of `Push`, `Replace` or
  `FullPageLoad` effects.
- The `setTimeout` delays before navigation become ordinary sequencing.

The model follows what the code does, in particular:

- There is no de-duplication flag for concurrent 401s. The only guard is
  the `error.message` comparison at `src/api/instance.ts:96`.
- A successful login always goes to `/dashboard`. No saved return path is
  ever consumed.
- There is no router guard. `src/router/index.ts` is a static table and is
  not part of this model.
- The request interceptor reads only the in-memory token, never the
  storage tiers.
- A failed storage write has no fallback.
- `initializeAuth` keeps the old in-memory token and profile when storage
  holds none.

## Model

| member | source | states |
|---|---|---|
| Common.OrElse | src/utils/auth.ts:13 | `a \|\| b` on optional strings: a truthy left operand wins, otherwise the right one |
| Auth.WithoutAuth | src/utils/auth.ts:74-79 | a tier without exactly the three session keys; every other key keeps its value |
| Auth.WithoutAuthIdempotent | src/utils/auth.ts:68-80 | clearing a tier twice is the same as clearing it once |
| Auth.RemoveAuthItems | src/utils/auth.ts:74-79 | the three `removeItem` calls on one tier equal removing the session keys |
| Auth.WithLogin | src/utils/auth.ts:61-64 | the chosen tier afterwards holds token, serialised profile and `'true'`, and keeps its other keys |
| Auth.ClearUndoesLogin | src/utils/auth.ts:51-80 | clearAuth after setAuth gives back the tier minus the session keys |
| Auth.StoredValue | src/utils/auth.ts:13-20 | the durable tier is read first and the ephemeral one is the fallback; an empty string counts as absent |
| Auth.FlagStored | src/utils/auth.ts:29-31 | either tier holds the flag key with exactly the text `'true'` |
| Auth.PreferSession | src/utils/auth.ts:36 | the durable tier has no non-empty token and the ephemeral tier has one; the token is then loaded from the ephemeral tier |
| Auth.AuthStore.constructor | src/utils/auth.ts:6-8 | starts with no token, no profile and the flag down |
| Auth.AuthStore.GetToken | src/utils/auth.ts:83-85 | the in-memory token, read without touching storage |
| Auth.AuthStore.GetUserInfo | src/utils/auth.ts:93-95 | the in-memory profile, read without touching storage |
| Auth.AuthStore.CheckIsLoggedIn | src/utils/auth.ts:88-90 | true iff the flag is set and a non-empty token is present |
| Auth.AuthStore.InitializeAuth | src/utils/auth.ts:11-48 | loads the token and profile, durable tier first; a profile that fails to parse leaves the old one; afterwards the flag is set iff a token is present, whatever the stored flags said; a missing flag is written to the ephemeral tier only when the token lives there alone; a stray flag is removed from both tiers; otherwise both tiers are unchanged |
| Auth.AuthStore.SetAuth | src/utils/auth.ts:51-65 | new token, profile and flag in memory; `CheckIsLoggedIn` holds iff the token is non-empty; the durable tier is chosen iff `rememberMe`; the chosen tier gets the login and the other holds none of the three keys |
| Auth.AuthStore.ClearAuth | src/utils/auth.ts:68-80 | nothing in memory, flag down, both tiers without the session keys and every other key kept |
| Auth.ClearTwice | src/utils/auth.ts:68-80 | a second clearAuth changes nothing more |
| Auth.ReloginMovesTier | src/utils/auth.ts:51-65 | after a remembered login and then an unremembered one, the durable tier holds no credential and the ephemeral tier holds the new token |
| Api.AuthorizedHeaders | src/api/instance.ts:20-31 | an Authorization header is present iff the token is truthy, and is then `Bearer ` plus the non-empty token; other headers are untouched |
| Api.InterceptRequest | src/api/instance.ts:15-46 | the request's headers become the authorised headers for the in-memory token |
| Api.ClassifyResponse | src/api/instance.ts:58-79 | resolves iff the data is falsy or an object without `code`, or the code is 200, and then with the data itself; a truthy non-object makes the `in` test throw a TypeError; any other code rejects with the envelope's message, or with the 401 or generic default, and never with an empty message |
| Api.ErrorInvalidatesSession | src/api/instance.ts:82-103 | the error path runs handleUnauthorized iff a response arrived with status 401 and the error's message is not the expiry text |
| Api.ClassifyError | src/api/instance.ts:82-123 | a response present is classified by status (401, 403, 404, at least 500, other); without one, a sent request is a network error and anything else a configuration error |
| Api.UnauthorizedNavigation | src/api/instance.ts:154-182 | no navigation on `/auth`; otherwise a `replace` to `/auth` with the current path as `redirect`; a full page load of `/auth` last iff the replace fails or the path cannot be read; only the page load when the path cannot be read; one step after a successful replace, two after a failed one; never a push, and never a target other than `/auth` |
| Api.HandleUnauthorized | src/api/instance.ts:129-183 | clears the session first, then issues exactly the navigation above |
| Api.InterceptResponse | src/api/instance.ts:54-80 | the outcome is the classification; a 401 envelope clears the session and navigates; any other data, including a body that makes the interceptor throw, leaves the session untouched and does not navigate |
| Api.InterceptError | src/api/instance.ts:81-125 | always rejects with the original error; an HTTP 401 whose message is not the expiry text clears the session and navigates; every other error leaves the session untouched |
| Pagination.CeilDiv | src/hooks/usePagination.ts:16-18 | the ceiling of a / b: for b > 0, the q with (q - 1) * b < a <= q * b, and the mirror bound for b < 0 |
| Pagination.PageCountOf | src/hooks/usePagination.ts:16-18 | `Math.ceil(total / pageSize)`: a whole count bracketing total for pageSize > 0, non-negative for total >= 0, 0 for no items, and never whole for pageSize 0 |
| Pagination.Exceeds | src/hooks/usePagination.ts:29 | JavaScript `page > totalPages`: never true against NaN or +Infinity, always against -Infinity, otherwise the integer comparison |
| Pagination.ExceedsMeansEmptyPage | src/hooks/usePagination.ts:16-29 | for a positive page size, a page exceeds the page count iff its first item index is at or past the total, so it would show nothing |
| Pagination.OrDefault | src/hooks/usePagination.ts:7-8 | `v \|\| d`: a missing or zero value gives the default |
| Pagination.Paginator.constructor | src/hooks/usePagination.ts:6-10 | page defaults to 1, pageSize to 10 (0 counts as missing), total starts at 0 |
| Pagination.Paginator.TotalPages | src/hooks/usePagination.ts:16-18 | the page count brackets the total for a positive page size |
| Pagination.Paginator.HandlePageChange | src/hooks/usePagination.ts:21-23 | only the page changes, to exactly the argument |
| Pagination.Paginator.HandleSizeChange | src/hooks/usePagination.ts:26-32 | sets the page size, resets the page to 1 iff it exceeds the new page count; afterwards the page is 1 or within the count |
| Pagination.Paginator.ResetPagination | src/hooks/usePagination.ts:35-38 | page 1, total 0, page size kept |
| Pagination.Paginator.SetTotal | src/hooks/usePagination.ts:41-43 | only the total changes |
| Pagination.Paginator.GetParams | src/hooks/usePagination.ts:46-51 | the current page and page size, with no state change |
| UseAuth.ParseLoginReply | src/hooks/useAuth.ts:26-47 | the three reply shapes in order: a code-200 envelope with truthy `data` gives its token (defaulting to "") and user; otherwise a top-level `token` key gives the top-level token and user; otherwise a `data` object with a `token` key gives that token and user; unmatched exactly when no shape applies |
| UseAuth.EnvelopeShapeWins | src/hooks/useAuth.ts:33-40 | with code 200 and a data object, the top-level token and user are ignored |
| UseAuth.TopLevelTokenWins | src/hooks/useAuth.ts:37-46 | without the code-200 envelope, a top-level token is taken with the top-level user, and `data` cannot change the result |
| UseAuth.LoginCredentials | src/hooks/useAuth.ts:49 | a credential is accepted iff the call returned, a shape matched, the token is non-empty and the user is present |
| UseAuth.AuthHook.constructor | src/hooks/useAuth.ts:11 | `loading` starts false |
| UseAuth.AuthHook.HandleLogin | src/hooks/useAuth.ts:20-78 | true iff a credential was accepted; then setAuth's state in the tier chosen by `rememberMe` (default false) and one push to `/dashboard`; on every failure the session is cleared and there is no navigation; `loading` ends false |
| UseAuth.AuthHook.HandleLogout | src/hooks/useAuth.ts:81-95 | clears the session and pushes `/auth` whether or not the call threw; returns whether it did not throw |
| UseAuth.AuthHook.CheckAuthAndRedirect | src/hooks/useAuth.ts:98-112 | allowed iff (logged in or auth not required) and not (logged in on `/auth`); otherwise one push, to `/dashboard` if logged in, else to `/auth` |
| ParkingUtils.BeforeFirst | src/utils/parkingUtils.ts:15-16 | `split(c)[0]`: the prefix before the first c, all of s without a c |
| ParkingUtils.ExtractLotIdentifier | src/utils/parkingUtils.ts:10-20 | null iff the number is empty; otherwise a prefix of it: up to the first '-' if there is one, else its first character |
| ParkingUtils.CharAtTestImpliesPrefix | src/utils/parkingUtils.ts:39-42 | for a non-empty identifier the `charAt(0)` test holds only when `startsWith` does |
| ParkingUtils.FirstMatch | src/utils/parkingUtils.ts:39-42 | the position of the first matching lot; no earlier lot matches |
| ParkingUtils.FindLotId | src/utils/parkingUtils.ts:39-46 | the value of the first matching lot, or none when no lot matches |
| ParkingUtils.LotIdFor | src/utils/parkingUtils.ts:35-47 | a lot id is attached iff the identifier is truthy and some lot label starts with it; it is then the value of the first such lot |
| ParkingUtils.AssociateSpotsWithLots | src/utils/parkingUtils.ts:28-49 | same length, order, labels and values; no lot id without lots or without a truthy identifier; with lots present, a spot with a truthy identifier gets exactly the first matching lot's value, or none; an attached id always belongs to a lot whose label starts with the identifier |
| ParkingUtils.FilterSpotsByLot | src/utils/parkingUtils.ts:58-73 | the input without a truthy selection; otherwise the order-preserving subsequence of that lot, or the whole input when that subsequence is empty and `showAllIfEmpty` (default true) holds |
| Seqs.FilterKey | src/hooks/useSpotMonitor.ts:51 | `filter(x => key(x) === k)`: no longer than the input, only matching elements, every matching element kept |
| Seqs.FilterKeyAll | src/utils/parkingUtils.ts:65 | a filter that every element passes returns the input unchanged |
| Seqs.SumCountsBound | src/hooks/useSpotMonitor.ts:61-88 | the counts for distinct keys add up to at most the length, and to the length when every element's key is among them |
| SpotMonitor.ComputeSpotStats | src/hooks/useSpotMonitor.ts:61-88 | the total is the length; each counter is the number of spots with its status; the four add up to at most the total, and to the total when every status is among them |
| SpotMonitor.StatusCountsBound | src/hooks/useSpotMonitor.ts:61-88 | the four status counts add up to at most the number of spots, and to all of them when every status is one of the four |
| SpotMonitor.GroupBy | src/hooks/useSpotMonitor.ts:21-46 | every spot's key has a bucket; every bucket is non-empty and holds exactly the spots with its key, in input order |
| SpotMonitor.SpotsByLot | src/hooks/useSpotMonitor.ts:21-32 | grouping by `parkingLotId`, as above |
| SpotMonitor.SpotsByZone | src/hooks/useSpotMonitor.ts:35-46 | grouping by `parkingZoneId`, as above |
| SpotMonitor.SpotsInSelectedLot | src/hooks/useSpotMonitor.ts:49-52 | empty for a null or 0 selection; otherwise the order-preserving filter on the lot, with every spot of that lot kept |
| SpotMonitor.SpotsInSelectedZone | src/hooks/useSpotMonitor.ts:55-58 | the same, on the zone |
| SpotMonitor.ZoneQueryFor | src/hooks/useSpotMonitor.ts:104-106 | a falsy lot id asks for every zone, otherwise for that lot's zones |
| SpotMonitor.RefreshSpotQuery | src/hooks/useSpotMonitor.ts:159-165 | the zone filter if a zone is selected, else the lot filter if a lot is selected, else no filter |
| SpotMonitor.MonitorState.constructor | src/hooks/useSpotMonitor.ts:13-18 | nothing selected, no handle, auto-refresh on at 30 seconds |
| SpotMonitor.MonitorState.RefreshQueries | src/hooks/useSpotMonitor.ts:148-173 | a refresh asks for the selected lot's zones, or all zones without a selection; and for the selected zone's spots, else the selected lot's, else all spots |
| SpotMonitor.MonitorState.SelectParkingLot | src/hooks/useSpotMonitor.ts:134-139 | selects the lot, clears the zone, reloads that lot's zones and spots; nothing else changes |
| SpotMonitor.MonitorState.SelectParkingZone | src/hooks/useSpotMonitor.ts:142-145 | only the zone changes; that zone's spots are reloaded |
| SpotMonitor.MonitorState.StopAutoRefresh | src/hooks/useSpotMonitor.ts:208-214 | the handle is cleared and no interval is live; a no-op when none was held |
| SpotMonitor.MonitorState.StartAutoRefresh | src/hooks/useSpotMonitor.ts:197-205 | stops any live interval first, so exactly one interval, the new one, is held |
| SpotMonitor.MonitorState.ToggleAutoRefresh | src/hooks/useSpotMonitor.ts:176-184 | sets the flag; a handle is held afterwards iff the flag is on |
| SpotMonitor.MonitorState.SetRefreshRate | src/hooks/useSpotMonitor.ts:187-194 | stores the rate; restarts the interval with it iff auto-refresh is on, otherwise leaves the handle alone |
| Statistics.TotalLots | src/hooks/useStatistics.ts:18 | the number of lots, equal to the number of `lotUtilization` entries |
| Statistics.TotalSpots | src/hooks/useStatistics.ts:21 | the number of spots, at least every count by status or by type |
| Statistics.AvailableSpots | src/hooks/useStatistics.ts:24-26 | the number of available spots, at most the total |
| Statistics.OccupiedSpots | src/hooks/useStatistics.ts:29-31 | the number of occupied spots, at most the total |
| Statistics.AvailableAndOccupiedBound | src/hooks/useStatistics.ts:18-31 | available plus occupied is at most `totalSpots` |
| Statistics.RoundHundredths | src/hooks/useStatistics.ts:91 | `Math.round(x * 100) / 100`: a whole number of hundredths in (x - 0.005, x + 0.005] |
| Statistics.RoundHundredthsUnique | src/hooks/useStatistics.ts:91 | that interval holds only one whole number of hundredths, so the rounding is determined |
| Statistics.Utilization | src/hooks/useStatistics.ts:84-91 | 0 for a lot without spots; otherwise occupied / total * 100 rounded to hundredths: a whole number of hundredths within half a hundredth of it, between 0 and 100 |
| Statistics.UsageOf | src/hooks/useStatistics.ts:81-92 | id and name copied; `total` counts the lot's spots; `occupied` counts its occupied spots and is at most `total`; utilisation 0 when `total` is 0 |
| Statistics.LotUtilization | src/hooks/useStatistics.ts:80-94 | one entry per lot, in lot order |
| Statistics.SpotsByType | src/hooks/useStatistics.ts:147-159 | exactly four entries, standard, handicapped, electric and compact, with their fixed labels and counts by type |
| Statistics.TypeLabel | src/hooks/useStatistics.ts:152-155 | each of standard, handicapped and electric has its own label, and every other type is labelled compact |
| Statistics.SpotsByTypeBound | src/hooks/useStatistics.ts:147-159 | the four type counts add up to at most the number of spots |
| Statistics.DecimalString | src/hooks/useStatistics.ts:106 | the decimal numeral of a whole number: one digit below 10, two below 100 |
| Statistics.HourLabel | src/hooks/useStatistics.ts:106 | the numeral of the hour followed by `:00` |
| Statistics.AllHours | src/hooks/useStatistics.ts:98 | the 24 hours 0 to 23 in order |
| Statistics.HourlyDistribution | src/hooks/useStatistics.ts:97-112 | exactly 24 entries; entry h is labelled `h:00` and counts the records that entered in hour h |
| Statistics.HourlySumFrom | src/hooks/useStatistics.ts:97-112 | the counts of entries j to 23 add up to the count of records whose hour is among them |
| Statistics.HourlyDistributionBound | src/hooks/useStatistics.ts:97-112 | the 24 counts add up to at most the number of records, and to all of them when every entry time parses |

## Left out

- Toasts (`ElMessage`) and console logging have no effect on the modelled
  state and are left out. This includes the toast in `handleUnauthorized`,
  whose failure the source swallows.
- Vue reactivity is not modelled. Refs are plain fields and computeds are
  functions of the current state. The lifecycle hooks are not modelled.
  In the monitor, `onMounted` runs a refresh and then `startAutoRefresh`,
  and `onUnmounted` runs `stopAutoRefresh`; the two handlers are
  modelled, and the refresh only by the queries it issues. In the
  statistics hook, `onMounted` runs `loadAllData`, which is network I/O.
- Network I/O is not modelled: `login()`, `logout()`, the list loaders,
  `refreshData`'s awaits and `loadAllData`'s `Promise.all`.
  - The login and logout results are parameters.
  - A refresh is modelled only by the queries it issues (`RefreshQueries`,
    `SelectParkingLot`, `SelectParkingZone`).
  - The `loading` flags of the monitor and statistics hooks are not
    modelled.
- The thin endpoint wrappers under `src/api/` are not part of this model.
  Nor are `src/hooks/useFormValidation.ts`, `src/router/index.ts` and
  `src/main.ts`.
- JSON serialisation is not modelled. The profile codec is supplied to
  `AuthStore` as two functions, with a failed parse as `None`.
- Dates are not modelled. `todayIncome`, `weeklyIncome`, `monthlyIncome`
  and `dailyIncome` depend on the clock and on floating-point sums and are
  left out. `Date.getHours` is the record field `entryHour`.
- Statistics.RoundHundredths: computed in exact real arithmetic, so binary
  floating-point rounding of `Math.round(utilization * 100) / 100` is not
  modelled.
- Timers are not modelled as time. `setTimeout` delays become ordinary
  sequencing. `setInterval` is modelled only as the handle the hook holds,
  and that handle is a parameter. The `refreshRate * 1000` period and the
  callbacks' later execution are not modelled.
- Concurrency is not modelled. In-flight requests racing each other on a
  401 are out of scope: the source has no shared flag, so only one
  sequential `handleUnauthorized` call is modelled.
- Values outside the declared types are not modelled:
  - codes and statuses that are not integers;
  - tokens that are not strings;
  - fractional pagination numbers.

  A falsy token or message is `""`, and `null`/`undefined` are `None`.
- ParkingUtils.ExtractLotIdentifier: Dafny strings are sequences of
  Unicode scalar values, while JavaScript's `charAt`, `split` and
  `startsWith` work on UTF-16 code units. For a spot number whose first
  character lies outside the Basic Multilingual Plane (an emoji, say),
  `charAt(0)` is a lone surrogate, and the model takes the whole
  character.
- ParkingUtils.AssociateSpotsWithLots: inherits the same difference. A
  lone surrogate can prefix-match a lot label that starts with a
  different astral character, and the model finds no match there.
- Storage writes that throw are not modelled. The `try`/`catch` around
  `clearAuth` in `handleUnauthorized` is therefore not modelled.
- Pagination.Paginator.TotalPages: its own contract states only the
  positive-page-size case. The zero case is stated on
  `Pagination.PageCountOf`.
