# GitHub rate-limit dashboard: session controller, card calculator, token form

This project models, in Dafny, the logic of a small browser dashboard. The user enters a
GitHub personal access token, the page fetches `https://api.github.com/rate_limit` with it,
and one card is drawn per rate-limit resource.

Three pieces carry logic, and each is one module:

- **`App`** (`src/App.tsx`) is the session controller. It has five cells: the React state
  `token`, `data`, `loading`, `error`, and the `github_token` entry of local storage. The
  transitions are pure functions on a `State` value:
  - `Initial` is start-up.
  - `Begin` and `Apply` are the two phases of `fetchData`, and `Fetch` is both together.
  - `Logout` is `handleLogout`.
  - `EffectFetch` is the `[token]` effect.
  - `RefreshFetch` is the Refresh button.
  - `Render` is what the page shows.

  The class `Session` holds the same cells as fields and updates them one statement at a
  time, in the component's order. Each of its methods is proved to produce exactly the
  state its function gives. The request is an abstract `Outcome`: `Ok(snapshot)`,
  `HttpError(status, statusText)` for a response whose `ok` flag is false, or
  `Transport(message?)` for anything else thrown.
- **`RateLimitCard`** (`src/components/RateLimitCard.tsx`) holds the card's derived values.
  All of them are total functions. The percentages are exact rationals (`real`), and the
  colour tier is proved equal to an integer cross-multiplication test.
- **`TokenInput`** (`src/components/TokenInput.tsx`) has two parts:
  - ECMAScript `trim` over its exact whitespace set, and the submit guard.
  - The class `TokenForm`, which holds the field text, the visibility flag and the last
    `initialToken`.

`Wrappers` (`Option`), `Text` (`includes`, and integer-to-decimal rendering, each proved to
read back to the number it renders)
and `RateLimitData` (the response shape) support these three modules.

Four behaviours of the code are easy to miss:

- Logout does not clear `error`. The stale message stays on the token form
  (`App.LogoutShowsTokenEntry`).
- The token is dropped whenever the thrown message contains "Invalid token", not only on a
  401. So a transport error with such a message logs out, and so does a non-401 status
  whose status text contains it (`App.ApplyApiError`, `App.ApplyTransport`).
- A 401 keeps the stale snapshot in `data`. The page still hides it, because the missing
  token selects the token form (`App.UnauthorizedShowsTokenEntry`).
- A successful login with a new token changes `token`. The effect then fetches a second
  time (`App.SuccessRetriggersEffect`).

The controller keeps one invariant: the token in memory always equals the token in storage
(`App.MirrorInvariant`).

## Model

| member | source | states |
|---|---|---|
| `App.BeginSpec` | src/App.tsx:25-27 | starting a fetch sets `loading`, clears `error`, and leaves `token`, `data` and storage unchanged |
| `App.ApplyFinishes` | src/App.tsx:47-56 | every outcome ends with `loading` false, and no failure touches `data` |
| `App.ApplySuccess` | src/App.tsx:42-46 | success stores the snapshot and makes the request's token both the active and the persisted token; `error` is not written |
| `App.ApplyUnauthorized` | src/App.tsx:35-37 | a 401 ends with the fixed invalid-token message, no token, no stored token, and the old snapshot |
| `App.ApiErrorPrefixShape` | src/App.tsx:39 | the only 'I' in "API Error: <status> " is the one in "API", and a space follows it |
| `App.NoMarkerInApiErrorPrefix` | src/App.tsx:39 | no occurrence of "Invalid token" in an API error message starts inside its fixed prefix |
| `App.ApiErrorMentionsInvalidToken` | src/App.tsx:39-50 | an API error message contains "Invalid token" exactly when its status text does |
| `App.ApplyApiError` | src/App.tsx:39-53 | a non-401 failure status gives "API Error: status statusText" and keeps the snapshot; it keeps the token exactly when the status text lacks "Invalid token", and otherwise drops it from memory and storage |
| `App.ApplyTransport` | src/App.tsx:47-53 | a thrown Error shows its message and a non-Error shows "An unknown error occurred"; the token is dropped exactly when the message contains "Invalid token"; the snapshot is kept |
| `App.OnlySuccessStoresToken` | src/App.tsx:42-53 | every outcome leaves storage unchanged or removes the key, except success, which stores the request's own token |
| `App.MirrorInvariant` | src/App.tsx:20-73 | start-up, both fetch phases and logout keep the in-memory token equal to the stored one |
| `App.FetchSuccessClearsError` | src/App.tsx:25-46 | a full fetch that succeeds leaves no error |
| `App.LogoutSpec` | src/App.tsx:69-73 | logout clears token, snapshot and storage, keeps `error` and `loading`, and is idempotent |
| `App.StartupFetchesStoredToken` | src/App.tsx:20-23 | start-up holds the stored token with no snapshot, no error and not loading; the first effect run fetches with the stored token exactly when it is non-empty |
| `App.SuccessRetriggersEffect` | src/App.tsx:46 | a success with a token other than the current one makes the effect fetch again with that token; a success with the current token does not |
| `App.PersistedTokenRoundTrip` | src/App.tsx:45 | a token persisted by a success comes back on the next start-up and is fetched automatically |
| `App.Cards` | src/App.tsx:140-153 | the dashboard shows "Core API" with the primary quota, then one card per resource in order |
| `App.RefreshGuard` | src/App.tsx:88-92 | Refresh fetches with the current token exactly when the dashboard is shown and the button is enabled |
| `App.UnauthorizedShowsTokenEntry` | src/App.tsx:108-116 | after a 401 the token form is shown with the invalid-token message, and the kept snapshot is not displayed |
| `App.LogoutShowsTokenEntry` | src/App.tsx:108-116 | after logout the token form is shown, still carrying the last error if it is non-empty |
| `App.Session.constructor` | src/App.tsx:20-23 | mounting gives exactly the initial state, with the effect not yet run |
| `App.Session.TokenEffect` | src/App.tsx:59-63 | the effect runs when it first sees the token or the token has changed, and then fetches with a non-empty token |
| `App.Session.BeginFetch` | src/App.tsx:25-27 | the new state is the begin phase of the old one |
| `App.Session.FinishFetch` | src/App.tsx:35-56 | the new state is the outcome applied to the old one, field by field as the component writes them |
| `App.Session.FetchData` | src/App.tsx:25-67 | the new state is one whole fetch applied to the old one (also `handleTokenSubmit`) |
| `App.Session.Refresh` | src/App.tsx:88-92 | Refresh begins a fetch with the current token only when the button is present and enabled |
| `App.Session.HandleLogout` | src/App.tsx:69-73 | the new state is logout applied to the old one |
| `App.ScenarioValidToken` | src/App.tsx:25-63 | a 200 for "VALID" ends idle and error-free, with the token held and persisted and one more fetch from the effect; 5 of 30 remaining is red |
| `App.ScenarioBadToken` | src/App.tsx:35-53 | a 401 for "BAD" removes the token and shows the invalid-token message on the token form |
| `App.ScenarioServerError` | src/App.tsx:39-63 | a stored token is fetched on start-up; a 500 error message names "500" and "Internal Server Error" and keeps the token |
| `App.ScenarioReload` | src/App.tsx:20-63 | after a successful login and a reload, the new session fetches with the same token |
| `App.LogoutTwice` | src/App.tsx:69-73 | two logouts leave the state one logout gives |
| `RateLimitCard.NoDivisionByZero` | src/components/RateLimitCard.tsx:53-54 | with a limit of zero or less, both percentages are 0 |
| `RateLimitCard.PercentBelow` | src/components/RateLimitCard.tsx:54-59 | for a positive limit, comparing the percentage with a threshold is the same as comparing `n * 100` with `k * limit` |
| `RateLimitCard.TierByCrossMultiplication` | src/components/RateLimitCard.tsx:57-59 | red exactly below 20 % (or a non-positive limit), yellow exactly from 20 % up to below 50 %, green exactly from 50 %, all by integer cross-multiplication |
| `RateLimitCard.Boundaries` | src/components/RateLimitCard.tsx:58-59 | exactly 20 % is yellow and exactly 50 % is green |
| `RateLimitCard.TierMonotone` | src/components/RateLimitCard.tsx:57-59 | with the limit fixed, more remaining never gives a more severe tier |
| `RateLimitCard.BarWidth` | src/components/RateLimitCard.tsx:104 | the width is the used percentage capped at 100: never above 100, and not negative when `used` is not negative |
| `RateLimitCard.CeilMinutes` | src/components/RateLimitCard.tsx:68 | the result is the least integer m with `ms <= m * 60000` |
| `RateLimitCard.RelativeTimeShowsMinutes` | src/components/RateLimitCard.tsx:62-69 | when the reset is a valid date and the minute count is positive, the count is shown and reads back exactly; otherwise (including a reset outside the range a `Date` can hold, where `diffMins` is NaN) the text is "Resetting soon", which shows no count |
| `RateLimitCard.RelativeTimePlural` | src/components/RateLimitCard.tsx:69 | when a count is shown, the text ends in "s" exactly when the count is not 1 |
| `RateLimitCard.RelativeTimeExamples` | src/components/RateLimitCard.tsx:66-69 | fifteen minutes ahead reads "in 15 mins", one minute ahead reads "in 1 min", and the past reads "Resetting soon" |
| `RateLimitCard.DisplayTitle` | src/components/RateLimitCard.tsx:76 | same length, no underscore, underscores become spaces and every other character is unchanged |
| `RateLimitCard.TablesHaveNoEmptyEntries` | src/components/RateLimitCard.tsx:15-47 | no entry of the description or link table is empty |
| `RateLimitCard.LookupWithFallback` | src/components/RateLimitCard.tsx:81-84 | the description is the table entry when the key exists and "GitHub API rate limit" otherwise; a link is shown exactly for the keys of the link table |
| `RateLimitCard.SameKeys` | src/components/RateLimitCard.tsx:15-47 | both tables have the same keys |
| `RateLimitCard.RenderCard` | src/components/RateLimitCard.tsx:49-122 | a card's heading has the title's length, and its bar is at most 100 % wide |
| `TokenInput.TrimStart` | src/components/TokenInput.tsx:19 | the result is a suffix that does not start with whitespace, and only whitespace was dropped |
| `TokenInput.TrimEnd` | src/components/TokenInput.tsx:19 | the result is a prefix that does not end with whitespace, and only whitespace was dropped |
| `TokenInput.Trim` | src/components/TokenInput.tsx:18-19 | the result is a contiguous slice of the input with no whitespace at either end, and only whitespace lies outside it |
| `TokenInput.TrimEmptyIff` | src/components/TokenInput.tsx:18 | the trimmed value is empty exactly when the input is all whitespace |
| `TokenInput.TrimOfTrimmed` | src/components/TokenInput.tsx:19 | a value with no surrounding whitespace trims to itself |
| `TokenInput.TrimIdempotent` | src/components/TokenInput.tsx:19 | trimming twice is trimming once |
| `TokenInput.SubmitGuard` | src/components/TokenInput.tsx:16-21 | a token is submitted exactly when the field has a non-whitespace character; the submitted token is non-empty, trimmed and a slice of the field |
| `TokenInput.SubmitCleanToken` | src/components/TokenInput.tsx:19 | a field that already holds a clean token submits it unchanged |
| `TokenInput.TokenForm.constructor` | src/components/TokenInput.tsx:9-10 | the field starts as `initialToken`, hidden |
| `TokenInput.TokenForm.OnChange` | src/components/TokenInput.tsx:30 | typing replaces the field text |
| `TokenInput.TokenForm.ToggleVisibility` | src/components/TokenInput.tsx:36 | the toggle flips visibility and nothing else |
| `TokenInput.TokenForm.Rerender` | src/components/TokenInput.tsx:12-14 | a changed `initialToken` resets the field to it; an unchanged one leaves the field alone |
| `TokenInput.TokenForm.HandleSubmit` | src/components/TokenInput.tsx:16-21 | submits what `SubmittedToken` gives for the field: exactly when the field is not all whitespace, and then the trimmed, non-empty text |
| `TokenInput.ToggleTwice` | src/components/TokenInput.tsx:36 | two toggles restore visibility and keep the text |
| `Text.ContainsInSuffix` | src/App.tsx:50 | an occurrence in a suffix is an occurrence in the whole string |
| `Text.MissingCharNotContained` | src/App.tsx:50 | a string missing one of the characters of `w` does not contain `w` |
| `Text.NatToString` | src/components/RateLimitCard.tsx:69 | the decimal rendering is non-empty, all digits, with no leading zero |
| `Text.NatToStringRoundTrip` | src/components/RateLimitCard.tsx:69 | reading the rendered digits back gives the number |
| `Text.IntToString` | src/App.tsx:39 | the rendering is digits, with a leading '-' exactly for negative numbers, and the digits read back to the number's magnitude |

## Left out

- The `fetch` call, the `Authorization` header and JSON parsing are network I/O. They are
  the abstract `App.Outcome`. A body that parses but does not have the response's shape
  is not modelled.
- Local storage is the `stored` cell, an optional string. A `setItem` that throws
  (quota exceeded, storage disabled) is not modelled.
- Overlapping fetches are not modelled. Each fetch is an atomic begin/apply pair, and the
  source keeps no request sequencing either.
- The percentages are exact rationals, not IEEE doubles. The tier thresholds therefore
  use exact cross-multiplication. For integer counts of realistic size, double rounding
  cannot move a value across 20 % or 50 %.
- `RateLimitCard.CeilMinutes`: works on exact integers. It does not model double rounding
  of `diffMs / 60000` for huge magnitudes. A reset outside the range a `Date` can hold
  (more than 8.64e15 ms from the epoch) is modelled: `RateLimitCard.RelativeTime` then gives
  "Resetting soon", as NaN does in the source. The current time `nowMs` is taken to be a
  valid date, as `new Date()` always is.
- `new Date()`, `toLocaleTimeString` and `toLocaleString` are clock and locale dependent.
  The current time is the `nowMs` parameter, and the formatted clock time is not
  modelled.
- JSX markup, Tailwind classes and the spinner's styling are not modelled. Neither is the
  input's `type` attribute, nor the Show/Hide label that follows `isVisible` (only the
  flag itself is modelled). `App.Render`
  keeps only which screen is shown, the error text, the spinner flag, the cards and the
  Refresh button's disabled flag.
- The table lookups ignore properties inherited from `Object.prototype`. A title such as
  "constructor" would find an inherited value in the source.
- The order of `Object.entries` is not modelled: the resources are a sequence in response
  order. JavaScript would list integer-like keys first.
- `TokenInput`'s `initialToken` is never passed by `App`, so it always defaults to the
  empty string there. The form is modelled for any value.
