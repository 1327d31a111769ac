# Recruitment-portal frontend: session store and authenticated request pipeline

This project is a Dafny model of the logic in a Next.js recruitment-portal frontend. The rest of that frontend renders pages over a remote REST API. The model covers four parts:

- **Session store** (`AuthContext`, file `auth_context.dfy`). The `AuthProvider` class holds the in-memory `user` and the `loading` flag. It writes the two persisted browser-storage entries: `tokens` (`{access, refresh}`) and `user`. Those entries live in the `LocalStorage` class (`browser_storage.dfy`). Its operations are `loadUser`, `login`, `register`, `logout` and `refreshProfile`, plus the derived flags `isAuthenticated`, `isAdmin` and `isApplicant`. Each operation is a method. Each method is proved against a step function on the whole `Session` value. The step function's contract states what the operation stores, clears, calls and returns.
- **Authenticated request pipeline** (`Api`, `api.dfy`):
  - the request interceptor, which attaches `Bearer <access>`;
  - the response interceptor, which refreshes the token pair once on a 401, merges the rotated pair, and resends the request or forces a sign-out;
  - the multipart form builders of `updateProfile`, `uploadNationalID`, the announcement admin calls and `paymentsAPI.submit`.

  The interceptor is a recursive method over a `RequestConfig` object, which carries the `_retry` flag. The method is proved against the step function `OnErrorStep`. The recursion models what happens when the resent request fails: it meets the same handler again.
- **Helpers** (`Utils`, `utils.dfy`): `classNames`, `getStatusColor`, and the empty-input guard of `formatDate` and `formatDateTime`.
- **Status label** (`StatusBadge`, `status_badge.dfy`): `replace(/_/g, ' ').replace(/\b\w/g, toUpperCase)` and the badge colour. The dashboard uses the same expression on `payment_type`.

Parameters stand in for everything outside the code:
- network replies (the `Fetch`, `RefreshReply` and `Settled` values);
- the decoded JWT claim (`JwtClaim`: undecodable, no `exp`, or `exp` in seconds);
- the current time in milliseconds;
- the `typeof window !== 'undefined'` guard.

The redirect to `/login` is a boolean result. The server calls each operation makes are returned as a list, so contracts can say when a call happens.

Behaviour of the code worth knowing:
- The response interceptor writes the merged pair itself; there is no separate token setter (lib/api.js:66-71).
- On success, `loadUser` sets only the in-memory user. It does not rewrite the stored `user` entry (context/AuthContext.js:31-32).
- `register` throws a TypeError before writing anything when the reply has no `tokens` object (context/AuthContext.js:62). The model returns `Err(MissingTokens)` in that case.
- Tokens are attached, and refreshes attempted, only when they are truthy. An empty string counts as absent.
- The `_retry` mark is set before the refresh token is read. So a 401 with no refresh token still marks the request (lib/api.js:56-61).
- If the resent request fails, the catch block does not run, because the resend is returned, not awaited. The session is not cleared. The resend's own rejection goes back through the handler as an already-retried request and passes through unchanged (lib/api.js:74).
- A JWT without `exp` makes the expiry comparison false (NaN). That takes the branch that removes both entries (context/AuthContext.js:30-35).

## Model

| member | source | states |
|---|---|---|
| `JsValues.ToText` | lib/utils.js:2 | `String(v)`: a truthy value has a non-empty text, and only a string value can have a text that is empty. Apart from strings and files, no text contains a space. |
| `JsValues.NatToDecimal` | lib/utils.js:2 | The digits of a natural number, without leading zeros. Reading them back as a decimal numeral gives the number. |
| `JsValues.IntToDecimal` | lib/utils.js:2 | `String(n)` for an integer: a leading `-` exactly when `n` is negative, then digits without leading zeros (`0` for zero) whose decimal value is the magnitude of `n`. |
| `BrowserStorage.LocalStorage.constructor` | context/AuthContext.js:27 | Storage starts with neither entry. |
| `BrowserStorage.LocalStorage.SetTokens` | context/AuthContext.js:53 | `setItem('tokens', …)` replaces the token entry and leaves the user entry alone. |
| `BrowserStorage.LocalStorage.SetUser` | context/AuthContext.js:55 | `setItem('user', …)` replaces the user entry and leaves the token entry alone. |
| `BrowserStorage.LocalStorage.RemoveTokens` | context/AuthContext.js:79 | `removeItem('tokens')` clears the token entry and leaves the user entry alone. |
| `BrowserStorage.LocalStorage.RemoveUser` | context/AuthContext.js:80 | `removeItem('user')` clears the user entry and leaves the token entry alone. |
| `AuthContext.IsAuthenticated` | context/AuthContext.js:103 | `isAuthenticated` holds exactly when a user is held in memory. |
| `AuthContext.IsAdmin` | context/AuthContext.js:104 | `isAdmin` implies `isAuthenticated` |
| `AuthContext.IsApplicant` | context/AuthContext.js:103-105 | `isApplicant` implies `isAuthenticated` and excludes `isAdmin` |
| `AuthContext.LoadUserStep` | context/AuthContext.js:25-44 | `loading` ends false on every path. With no truthy access token, nothing is called or stored. The profile is fetched exactly when the token is present and `exp*1000 > now` (strict). A fetched profile goes into memory only. An expired, undecodable or `exp`-less token, or a failed fetch, removes both entries and keeps the in-memory user. |
| `AuthContext.LoginStep` | context/AuthContext.js:50-58 | Fails exactly when the request fails, and then writes nothing. On success it stores the top-level `{access, refresh}` and the user, holds the user in memory, and returns that user. |
| `AuthContext.RegisterStep` | context/AuthContext.js:60-68 | Same as login, but the pair comes from `res.data.tokens`. A failed request, or a reply without `tokens`, writes nothing. |
| `AuthContext.LogoutStep` | context/AuthContext.js:70-82 | Whatever the server replies, both entries and the in-memory user are cleared and every flag is false. The server is called, with the stored refresh token, only when that token is truthy. |
| `AuthContext.RefreshProfileStep` | context/AuthContext.js:84-92 | A fetched profile replaces both the in-memory and the stored user. A failure changes nothing. |
| `AuthContext.LoginRegisterAgree` | context/AuthContext.js:50-68 | Given the same tokens and user, login and register leave identical sessions and return the same user. |
| `AuthContext.LoginAfterLogout` | context/AuthContext.js:50-82 | Login after logout leaves exactly the reply's tokens and user, whatever was stored before. |
| `AuthContext.SignInFlags` | context/AuthContext.js:50-68 | After a successful login or registration the user is authenticated, `isAdmin` holds exactly for role `admin` and `isApplicant` exactly for role `applicant`. A failed one leaves the in-memory user, and so every flag, as it was. |
| `AuthContext.ApplicantLoginScenario` | context/AuthContext.js:50-58 | Login reply `{A1, R1, applicant}`: that triple is stored, `isApplicant` holds and `isAdmin` does not. |
| `AuthContext.AuthProvider.constructor` | context/AuthContext.js:22-23 | The provider starts with no user and `loading` true. |
| `AuthContext.AuthProvider.LoadUser` | context/AuthContext.js:25-44 | The new storage and provider state, and the calls made, are those of `LoadUserStep`. |
| `AuthContext.AuthProvider.Login` | context/AuthContext.js:50-58 | The new state, the result and the calls are those of `LoginStep`. |
| `AuthContext.AuthProvider.Register` | context/AuthContext.js:60-68 | The new state, the result and the calls are those of `RegisterStep`. |
| `AuthContext.AuthProvider.Logout` | context/AuthContext.js:70-82 | The new state and the calls are those of `LogoutStep`. |
| `AuthContext.AuthProvider.RefreshProfile` | context/AuthContext.js:84-92 | The new state and the calls are those of `RefreshProfileStep`. |
| `Api.Bearer` | lib/api.js:32 | The header value is `"Bearer "` followed by the token. |
| `Api.WithBearer` | lib/api.js:27-38 | `Authorization` becomes `Bearer <access>` when there is a window and a truthy stored access token. Otherwise the headers are unchanged. No other header changes. |
| `Api.AttachAccessToken` | lib/api.js:27-38 | The request interceptor sets the config's headers to `WithBearer` of the old headers and leaves `_retry` alone. |
| `Api.RotatedTokens` | lib/api.js:66-69 | The new pair has the new access token. It keeps the returned refresh token when that is truthy, and the previous one otherwise, so a truthy refresh token survives a rotation. |
| `Api.RefreshCount` | lib/api.js:62-64 | Counts the token-refresh requests in a call list: zero exactly when there is none, the whole length exactly when every call is one. |
| `Api.OnErrorStep` | lib/api.js:46-85 | At most one token refresh per request. Anything but a first 401 in a browser is rejected unchanged, with storage untouched. A 401 marks the request. With no refresh token it rejects without a call. A failed refresh removes both entries, redirects and rejects the original error. A successful refresh stores the rotated pair, sets the config's `Authorization` to the new bearer value, resends once and returns that reply as it is. A failed refresh leaves the headers alone. |
| `Api.RetriedOnce` | lib/api.js:51-56 | After a 401 has been handled, any further error on the same request passes through, with no call and no state change. |
| `Api.RefreshKeepsRefreshTokenScenario` | lib/api.js:59-74 | A refresh reply `{access: A2}` keeps `R1` as the stored refresh token and resends with `Bearer A2`. |
| `Api.OnResponseError` | lib/api.js:48-84 | The new storage and config, the reply, the calls and the redirect flag are those of `OnErrorStep`. |
| `Api.FormData.constructor` | lib/api.js:99 | `new FormData()` starts with no fields. |
| `Api.FormData.Append` | lib/api.js:102 | `formData.append(key, value)` adds one field at the end and keeps the earlier ones. |
| `Api.Kept` | lib/api.js:100-103 | A field is appended if and only if it is in the data and the rule admits its value. |
| `Api.KeptAppend` | lib/api.js:182-184 | Filtering preserves the original order: it distributes over concatenation. |
| `Api.BuildForm` | lib/api.js:99-104 | The `forEach` loop appends exactly `Kept(rule, data)`, in order. |
| `Api.UpdateProfileBody` | lib/api.js:98-109 | Exactly the fields whose value is not null, undefined or `''` are appended, in order. |
| `Api.AnnouncementBody` | lib/api.js:180-200 | Only null and undefined are dropped, so `''` and `false` are sent, in order. |
| `Api.PaymentBody` | lib/api.js:212-221 | Only null and undefined are dropped, so `''` and `false` are sent, in order. |
| `Api.NationalIdBody` | lib/api.js:111-119 | `national_id_front` is appended if and only if `front` is truthy, and likewise `national_id_back` for `back`. Nothing else is appended, and the front comes first. |
| `Utils.TruthyTexts` | lib/utils.js:2 | The texts kept are non-empty, and there are none exactly when no argument is truthy. A single argument gives its own `String()` text when it is truthy and nothing otherwise. |
| `Utils.TruthyTextsAppend` | lib/utils.js:2 | `filter(Boolean)` keeps the arguments' order: it distributes over concatenation. |
| `Utils.JoinSpaces` | lib/utils.js:2 | `join(' ')` of no parts is `''`. With a non-empty first part the result is non-empty. |
| `Utils.JoinSpacesAppend` | lib/utils.js:2 | Joining two non-empty lists puts exactly one space between their joined texts. |
| `Utils.ClassNames` | lib/utils.js:1-3 | The result is `''` exactly when no argument is truthy, including when there are no arguments. A single argument gives its own text when truthy and `''` otherwise. |
| `Utils.ClassNamesAppend` | lib/utils.js:1-3 | `classNames(...x, ...y)` is the two results joined by one space, or just one of them when the other is `''`. With the single-argument case this fixes the result for every argument list, spaces inside texts included. |
| `Utils.SplitJoin` | lib/utils.js:2 | Splitting on `' '` undoes `join(' ')` for space-free parts. |
| `Utils.ClassNamesSplit` | lib/utils.js:1-3 | When no truthy argument's text contains a space, splitting the result on `' '` gives back exactly the truthy arguments' texts, in order. |
| `Utils.GetStatusColor` | lib/utils.js:27-44 | Each of the 13 listed statuses gets its table entry. Any other status gets `bg-gray-100 text-gray-800`. The class is always one of the seven palette classes. |
| `Utils.NeutralStatuses` | lib/utils.js:27-44 | Grey is returned exactly for unlisted statuses and for `closed` and `low`. |
| `Utils.FormatDate` | lib/utils.js:5-6 | A falsy input gives `''`. |
| `Utils.FormatDateTime` | lib/utils.js:15-16 | A falsy input gives `''`. |
| `StatusBadge.ToUpper` | components/StatusBadge.js:5 | `toUpperCase` on a matched `\w` character: exactly `a`-`z` change, each to the letter 32 code points lower in `A`-`Z`. Every other character is unchanged. |
| `StatusBadge.SpaceUnderscores` | components/StatusBadge.js:5 | Same length, and each `_` becomes a space. |
| `StatusBadge.CapitalizeFrom` | components/StatusBadge.js:5 | Same length. A `\w` character at a word start is upper-cased, and every other character is unchanged. |
| `StatusBadge.Humanize` | app/dashboard/page.js:152 | The label has the input's length and contains no `_`. |
| `StatusBadge.HumanizeAt` | components/StatusBadge.js:5 | Stated on the original string: `_` becomes a space. A `[A-Za-z0-9]` character is upper-cased when it is at the start or after `_` or another non-word character. Everything else is unchanged. |
| `StatusBadge.HumanizeFixed` | components/StatusBadge.js:5 | An underscore-free string whose word starts are already upper case is left as it is. |
| `StatusBadge.HumanizeIdempotent` | components/StatusBadge.js:5 | Applying the transform twice gives the same result as applying it once. |
| `StatusBadge.HumanizeAtUnderscore` | components/StatusBadge.js:5 | The parts on either side of a `_` are labelled independently and joined by a space. |
| `StatusBadge.HumanizeLowerWord` | components/StatusBadge.js:5 | A lower-case word gets only its first letter upper-cased. |
| `StatusBadge.UnderReviewLabel` | components/StatusBadge.js:5 | `under_review` becomes `Under Review`. |
| `StatusBadge.Label` | components/StatusBadge.js:5 | A missing status gives no label. Otherwise the label has the same length and no `_`. |
| `StatusBadge.LabelIdempotent` | components/StatusBadge.js:5 | Labelling is idempotent. |
| `StatusBadge.Render` | components/StatusBadge.js:3-12 | The colour is `getStatusColor(status)`. A missing status gets the grey default. |

The predicates `StatusBadge.IsWordChar` (`\w`), `StatusBadge.WordStart` (`\b\w`), `JsValues.Truthy`, `JsValues.Present`, `BrowserStorage.HasAccess`, `BrowserStorage.HasRefresh`, `AuthContext.Cleared`, `AuthContext.Unexpired`, `Api.FirstUnauthorized` and `Api.Admits` are helpers. They state the regular-expression classes of the status label, JavaScript truthiness, the `exp * 1000 > Date.now()` test and the tests that guard each `formData.append`, and the rows above use them.

## Left out

- Page and UI components (pages, layouts, navbar, footer, file picker): these are JSX rendering, toasts and router pushes.
- HTTP transport (axios, base URL, the endpoint paths and verbs of every wrapper): each reply is an input. `uploadResume` and `uploadPhoto` make one unconditional append and have no logic, so they are not modelled.
- `jwtDecode`, `Date.now()` and `JSON.parse`/`JSON.stringify`: the claim and the time are parameters, and the storage entries are typed fields. A malformed stored entry, which would make `JSON.parse` throw, cannot be represented.
- JSON `null` and a missing property are both `None` in the token pair. So a refresh reply with `access: null`, which makes lib/api.js:73 set the header `Bearer null`, is modelled as `Bearer undefined`.
- A login or register reply without a `user` object is not modelled. The real code would store the text "undefined".
- `window.location` redirect: it is the boolean `redirect` result. The `typeof window` guard is a parameter.
- React mechanics: `useEffect` calling `loadUser` on mount, `useCallback`, re-rendering, and the context's default value.
- How the store's network calls pass through the pipeline: the replies the store receives are the final ones after the pipeline. The pipeline's own storage effects, such as clearing after a failed refresh, are modelled only by `OnErrorStep`. The in-memory `user` is not cleared by the pipeline.
- Concurrent 401s racing to refresh: the code does not coordinate them.
- The identity success handler `response => response` and the request interceptor's `Promise.reject(error)` error handler: they do nothing.
- JavaScript values: NaN, fractional numbers and objects other than files are not modelled, in `classNames` arguments or in form values. `getStatusColor` takes plain status strings only, so prototype keys such as `constructor` are not modelled.
- Locale date formatting in `formatDate`/`formatDateTime`: the formatted text is a parameter, and only the falsy-input guard is modelled.
- IntToDecimal: `String(n)` switches to exponent notation (`1e+21`) for magnitudes of 10^21 and more; the model always writes plain digits, because form values and class names are integers of ordinary size.
