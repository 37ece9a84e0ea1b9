# creative-oasis client core, modelled in Dafny

The repository is a browser client for a course, music and membership site.
It has no protocol, storage engine or scheduler. What it does have is a set of
small sequential pieces of logic, and this project models and proves those:

- **Shared types** (`types.dfy`). The `ResponseStatus` enum and the
  `ResponseStatusType` union of eight backend codes. The `OrderStatus`,
  `ScanStatus` and `OrderType` string unions. The `User` and `Order` records.
  In `Order`, only `paidTime` is an `Option`, because `paid_time` is the one
  nullable field.
- **HTTP client interceptors** (`api.dfy`). The request interceptor adds
  `Authorization: Bearer <token>` when a truthy token is stored. The response
  interceptor turns a backend `code` into resolve, reject with a redirect to
  /401, /403 or /404, or reject alone. The transport-error handler chooses
  between the network notice and the timeout notice.
- **Router** (`router.dfy`). The route table with its `requiresAuth` flags,
  and the `beforeEach` guard as a pure decision.
- **Session store** (`user_store.dfy`). A `Store` class holds the refs
  `token`, `refreshToken`, `userInfo` and `isLoggedIn`, and a shared
  `LocalStorage` object (`storage.dfy`) holds the storage. The methods are
  `Login`, `Logout`, `UpdateUserInfo` and `FetchUserInfo`. Each one is given
  what the API call returned, or that it threw. Each is proved against a pure
  function over the pair (refs, storage).
- **Rate limiters** (`rate_limit.dfy`). `throttle` is a class over `lastTime`
  with the clock as an input. `debounce` is a class with one pending-timer
  slot. Pure folds over call traces state what each promises.
- **Theme hook** (`theme.dfy`). `initTheme` resolves the saved preference
  against the system preference. `toggleTheme` flips `isDark`, updates the
  root element's "dark" class and saves the theme.
- **Login and registration panels** (`login_form.dfy`, `register_form.dfy`,
  `chars.dfy`). The captcha editor with its typing, backspace, paste and reset
  handlers. The login and registration submit checks. The QQ-mail and
  password rules. The send-code countdown.
- **Cross-component properties** (`flows.dfy`):
  - after a redirect to login, a successful login returns the user to the
    original page;
  - `fetchUserInfo` and `login` behave by backend code once the interceptor
    has run;
  - the stored token reaches outgoing requests;
  - the error pages are public.

Toasts, router navigation and promise settlement are returned as values. The
login panel is compiled and minified, so its handlers are identified by their
minified names: `O` typing, `k` backspace, `s` paste, `B` captcha reset, `S`
form reset, `T` submit. In the registration panel they are `S` mail rule, `T`
password rule, `a` send code, `M` submit and `E` reset.

## Model

| member | source | states |
|---|---|---|
| `Types.Code` | src/types/index.ts:32-41 | Every `ResponseStatus` member's value belongs to `ResponseStatusType`. |
| `Types.StatusOf` | src/types/index.ts:13-41 | Looking a code up in the enum succeeds exactly for the eight codes 200, 201, 400, 401, 403, 404, 409 and 500, and the member found has that code. |
| `Types.CodeRoundTrip` | src/types/index.ts:32-41 | Each member is found again from its code. |
| `Types.CodeInjective` | src/types/index.ts:32-41 | Two members have the same code only if they are the same member. |
| `Types.DeclaredSuccessCodes` | src/types/index.ts:13-15 | Among the declared codes, exactly SUCCESS (200) and CREATED (201) are in [200, 300). |
| `Types.OrderStatusNames` | src/types/index.ts:170 | Naming and parsing `OrderStatus` are inverse both ways, so the union is exactly pending, scanned, paid, cancelled and failed. |
| `Types.ParseScanStatus` | src/types/index.ts:172-173 | A string is a `ScanStatus` exactly when it is pending, scanned or paid, and then it parses to the same `OrderStatus`; cancelled and failed are not scan statuses. |
| `Types.ParseOrderType` | src/types/index.ts:176 | A string is an `OrderType` exactly when it is monthly or yearly, and it names the type it parses to. |
| `Api.OnResponse` | src/api/index.ts:27-61 | Resolves, with the envelope, exactly for a 2xx code, and then never navigates. It shows a success toast exactly when the message is non-empty and not "success". Every other code rejects with the envelope and shows the message as an error. It navigates exactly for UNAUTHORIZED, FORBIDDEN and NOT_FOUND, to "/" followed by the code's three digits. |
| `Api.OnTransportError` | src/api/index.ts:62-71 | The network notice exactly for ERR_NETWORK and ECONNABORTED; the timeout notice for any other code or none. |
| `Api.Authorize` | src/api/index.ts:17-24 | With a truthy token, the Authorization value reads back (after "Bearer ") as exactly that token. Without one, the headers are unchanged. No other header ever changes. |
| `Api.RequestConfig.Intercept` | src/api/index.ts:17-24 | The config's headers become `Authorize` of the old headers and the token stored under "token". |
| `Router.BeforeEach` | src/router/index.ts:96-113 | A logged-in user heading to login goes to dashboard, and this is checked first. An anonymous user heading to a requiresAuth route goes to login with `redirect` set to the full path, and an error is shown. Everything else proceeds. An anonymous user is never let through to a requiresAuth route. |
| `Router.ProtectedRoutes` | src/router/index.ts:9-92 | The routes with requiresAuth are exactly dashboard, course-list, payment and payment-result; payment-scan is public. |
| `Router.RedirectSettles` | src/router/index.ts:96-113 | Every guard redirect names a route of the table, and the guard lets the same user through to that route, so redirects never loop. |
| `UserStore.Restore` | src/stores/modules/user.ts:9-14 | On creation, `token` and `refreshToken` are the texts stored under "token" and "refreshToken", or none when nothing is stored. `userInfo` is the stored user exactly when a serialised user is stored. `isLoggedIn` holds exactly when the stored token is truthy. |
| `UserStore.Store.constructor` | src/stores/modules/user.ts:9-14 | The refs are `Restore(storage)`, and storage and refs agree. |
| `UserStore.LoginOutcomeOf` | src/stores/modules/user.ts:23-43 | `login` resolves with the result exactly on code 200. Another code rejects and shows the server's message. A thrown error rejects with the generic notice. |
| `UserStore.Store.Login` | src/stores/modules/user.ts:17-44 | The refs and storage become `AfterLogin` of the old ones, and the outcome is `LoginOutcomeOf(result)`. |
| `UserStore.LoginSetsSession` | src/stores/modules/user.ts:24-36 | On code 200, `token`, `refreshToken` and `userInfo` come from the returned user and `isLoggedIn` is true. The keys token, refreshToken and userInfo are written to match, and no other key changes. |
| `UserStore.LoginFailureKeepsWorld` | src/stores/modules/user.ts:37-43 | A non-200 result or a thrown error leaves every ref and key as it was. |
| `UserStore.Store.Logout` | src/stores/modules/user.ts:47-58 | The refs and storage become `AfterLogout` of the old ones. |
| `UserStore.LogoutIdempotent` | src/stores/modules/user.ts:47-58 | Logging out twice equals logging out once. The result is logged out, and it is what a reload would restore. |
| `UserStore.Store.UpdateUserInfo` | src/stores/modules/user.ts:61-64 | The refs and storage become `AfterUpdate` of the old ones. |
| `UserStore.UpdateChangesOnlyUser` | src/stores/modules/user.ts:61-64 | Only `userInfo` and the "userInfo" key change, both to the new user. |
| `UserStore.Store.FetchUserInfo` | src/stores/modules/user.ts:67-78 | The refs and storage become `AfterFetch` of the old ones. |
| `UserStore.FetchOutcomes` | src/stores/modules/user.ts:67-78 | A thrown error equals a logout. Code 200 equals `updateUserInfo` with the returned user. Any other code changes nothing. |
| `UserStore.OperationsKeepMirror` | src/stores/modules/user.ts:9-78 | If storage restores to the current refs, it still does after a logout, an update, a fetch or a failed login. After a successful login it does exactly when the returned token is non-empty. |
| `RateLimit.Throttle.constructor` | src/utils/index.ts:15 | `lastTime` starts at 0 with no calls. |
| `RateLimit.Throttle.Call` | src/utils/index.ts:16-22 | `fn` runs with the call's arguments exactly when now − lastTime ≥ delay. If it runs, `lastTime` becomes now; otherwise `lastTime` is unchanged. The record of runs grows by this call exactly when it ran. |
| `RateLimit.RunsSpaced` | src/utils/index.ts:13-23 | Over any sequence of call times, every run is at one of the calls, and `lastTime` is the latest run, or 0 before any. Consecutive runs are at least `delay` apart, even when the clock goes backwards. |
| `RateLimit.RunsPairwiseSpaced` | src/utils/index.ts:13-23 | With a non-negative delay, any two runs are at least `delay` apart. |
| `RateLimit.Debounce.constructor` | src/utils/index.ts:3 | A new debounced wrapper has no pending timer. |
| `RateLimit.DebounceStep` | src/utils/index.ts:4-9 | A call replaces whatever is pending with its own arguments, due `delay` later. A clock reading runs `fn` exactly when a call is pending and due by then. It runs with that call's arguments and empties the slot. A clock reading before the due time leaves the slot as it was. |
| `RateLimit.Debounce.Call` | src/utils/index.ts:4-9 | The pending slot holds exactly this call's arguments, due `delay` later; the previous timer is gone. |
| `RateLimit.Debounce.Tick` | src/utils/index.ts:8 | When the clock reaches the pending timer, `fn` runs with its arguments and the slot empties; otherwise nothing happens. |
| `RateLimit.DebounceFiresLatest` | src/utils/index.ts:4-9 | After a call at t followed only by clock readings, `fn` runs once, with exactly that call's arguments, as soon as the clock reaches t + delay. Until then the call stays pending. |
| `RateLimit.DebounceKeepsLatest` | src/utils/index.ts:2-10 | Over any event sequence, a pending call carries the arguments of the most recent call, and no call has come after it. Runs plus the pending call never outnumber calls. |
| `Theme.ThemeToggle.constructor` | src/hooks/useToggleTheme.ts:7-24 | After creation (which runs `initTheme` at once), `isDark` is the resolved preference and the class mirrors it. |
| `Theme.ThemeToggle.InitTheme` | src/hooks/useToggleTheme.ts:10-21 | With a truthy saved theme, `isDark` holds exactly when it is "dark". Otherwise `isDark` equals the system preference. The "dark" class equals `isDark`. |
| `Theme.ThemeToggle.ToggleTheme` | src/hooks/useToggleTheme.ts:30-60 | On both paths `isDark` is negated and the class mirrors it. The saved theme is "dark" exactly when `isDark` holds, and no other key changes. |
| `Theme.ToggleTwice` | src/hooks/useToggleTheme.ts:35-37 | Two toggles restore `isDark` and save the original theme. |
| `Theme.SavedThemeRestores` | src/hooks/useToggleTheme.ts:10-37 | The theme a toggle saves is the one the next `initTheme` resolves, whatever the system prefers. |
| `Chars.Trim` | assets/LoginView-D5nEC42u.js:1 | `trim` as the mail and password rules use it: the result is empty exactly when the input is all whitespace, and otherwise starts and ends with a non-whitespace character. |
| `Chars.TrimStartStrips` | assets/LoginView-D5nEC42u.js:1 | Everything that removing leading whitespace drops is whitespace. What is left is a suffix of the input that does not start with whitespace. |
| `Chars.TrimEndStrips` | assets/LoginView-D5nEC42u.js:1 | Everything that removing trailing whitespace drops is whitespace. What is left is a prefix of the input that does not end with whitespace. |
| `Chars.TrimSlice` | assets/LoginView-D5nEC42u.js:1 | The trimmed text is a contiguous slice of the input, and everything outside it on either side is whitespace. |
| `Chars.Alnums` | assets/LoginView-D5nEC42u.js:1 | The paste filter keeps exactly the ASCII letters and digits, never lengthens the text, and leaves all-alphanumeric text unchanged. |
| `Chars.AlnumsFilters` | assets/LoginView-D5nEC42u.js:1 | The paste filter keeps a single character exactly when it is a letter or digit, and filtering a concatenation concatenates the filtered parts, so order and repeats are kept. |
| `LoginForm.Panel.constructor` | assets/LoginView-D5nEC42u.js:1 | The login panel starts with empty email and password, four empty captcha slots, the terms not agreed and not loading. |
| `LoginForm.Entry` | assets/LoginView-D5nEC42u.js:1 | Typing into a slot (`O`): any non-alphanumeric character clears it. Otherwise the slot becomes the first character upper-cased, or stays empty for an empty value. The slot always holds "" or one upper-case letter or digit. |
| `LoginForm.Panel.Input` | assets/LoginView-D5nEC42u.js:1 | Slot i becomes `Entry(value)` and no other slot changes. The submit runs exactly when the value was alphanumeric, every slot is filled and email and password are non-empty. |
| `LoginForm.BackspaceClearsOne` | assets/LoginView-D5nEC42u.js:1 | Backspace (`k`) clears slot i if it is filled, else slot i−1 when i > 0. At most one slot changes, every slot stays valid, and any other key changes nothing. |
| `LoginForm.Panel.Backspace` | assets/LoginView-D5nEC42u.js:1 | The slots become `Backspaced(old slots, i, key)`. |
| `LoginForm.PasteFills` | assets/LoginView-D5nEC42u.js:1 | Paste (`s`) writes the upper-cased forms of up to four of the text's letters and digits into slots 0..k−1. Later slots are unchanged and every slot stays valid. |
| `LoginForm.Panel.Paste` | assets/LoginView-D5nEC42u.js:1 | With no text, or no letter or digit in it, nothing changes. Otherwise the slots become `Pasted(old slots, text)`, and the submit runs exactly when every slot is filled and email and password are non-empty. |
| `LoginForm.Panel.ResetCaptcha` | assets/LoginView-D5nEC42u.js:1 | Reset (`B`) makes all four slots "" and touches no other field. |
| `LoginForm.Panel.ResetForm` | assets/LoginView-D5nEC42u.js:1 | Switching to registration (`S`) empties email, password and all slots, and clears consent and loading. |
| `LoginForm.Joined` | assets/LoginView-D5nEC42u.js:1 | With four valid filled slots, the captcha sent is four characters, one from each slot in order. |
| `LoginForm.SubmitCheck` | assets/LoginView-D5nEC42u.js:1 | Submit (`T`) builds the request only if email is non-empty, password is non-empty, all four slots are filled and the terms are agreed. The first failing check is reported, in that order. |
| `LoginForm.ButtonMatchesChecks` | assets/LoginView-D5nEC42u.js:1 | The login button is enabled exactly when a click would send the request. |
| `LoginForm.Panel.Submit` | assets/LoginView-D5nEC42u.js:1 | A failed check warns and changes nothing. Otherwise the store's `Login` runs. On success the panel navigates to the redirect query, or /dashboard without one. On failure the captcha is cleared. Loading ends false. |
| `RegisterForm.MatchQQMailCorrect` | assets/LoginView-D5nEC42u.js:1 | The left-to-right matcher for `^[1-9][0-9]{4,}@qq\.com$` accepts exactly a non-zero digit, then at least four digits, then "@qq.com". |
| `RegisterForm.CheckEmail` | assets/LoginView-D5nEC42u.js:1 | The mail rule (`S`): an address that is empty or all whitespace is missing. Otherwise the address is valid exactly when its trimmed form is a QQ mail address. |
| `RegisterForm.MatchPasswordCorrect` | assets/LoginView-D5nEC42u.js:1 | The password matcher, lookaheads included, accepts exactly 8 to 20 ASCII letters and digits with at least one lower-case letter, one upper-case letter and one digit. |
| `RegisterForm.CheckPassword` | assets/LoginView-D5nEC42u.js:1 | The password rule (`T`): a password that is empty or all whitespace is missing. A password is valid exactly when the pattern as written accepts the untrimmed string, which is exactly when it is strong. |
| `RegisterForm.CountdownRunsOut` | assets/LoginView-D5nEC42u.js:1 | From 30, the countdown shows 30 − n after n ticks and its interval stops exactly at 0. |
| `RegisterForm.Panel.constructor` | assets/LoginView-D5nEC42u.js:1 | Every field starts empty or false, the countdown is 0 and no interval runs. |
| `RegisterForm.SendStartOf` | assets/LoginView-D5nEC42u.js:1 | The send-code click (`a`) is ignored while the countdown is above 0 or a send is in flight. Otherwise an invalid address warns with the mail rule's verdict. A valid address without agreed terms asks for consent. A valid address with agreed terms starts the send to that address. |
| `RegisterForm.Panel.BeginSend` | assets/LoginView-D5nEC42u.js:1 | The click's result is `SendStartOf` of the countdown, the in-flight flag, the address and the consent. The in-flight flag is raised exactly when the send starts, and no other field changes. |
| `RegisterForm.Panel.FinishSend` | assets/LoginView-D5nEC42u.js:1 | A successful send sets the countdown to 30 and starts the interval. A failed one shows the send-failed error and leaves the countdown alone. The send is over either way, and no form field changes. |
| `RegisterForm.Panel.TickSecond` | assets/LoginView-D5nEC42u.js:1 | One interval tick subtracts one second and clears the interval at 0 or below, keeping 0 ≤ countdown ≤ 30, with the interval running exactly while countdown > 0. No form field changes. |
| `RegisterForm.SubmitCheck` | assets/LoginView-D5nEC42u.js:1 | Submit (`M`) builds the request only for a valid address, a strong password, a matching confirmation, a non-empty code and agreed terms. The first failing check is reported, in that order. A bad address or password carries the rule's verdict. |
| `RegisterForm.ReadyImpliesEnabled` | assets/LoginView-D5nEC42u.js:1 | Whenever the submit checks pass, the register button was enabled. |
| `RegisterForm.Panel.Submit` | assets/LoginView-D5nEC42u.js:1 | A failed check gives its warning. A 200 response switches to the login panel. A thrown error shows the failure. Any other response does nothing. |
| `RegisterForm.Panel.ResetForm` | assets/LoginView-D5nEC42u.js:1 | The reset (`E`) empties every field, clears consent and stops the countdown at 0. It leaves an in-flight send alone. |
| `Flows.Awaited` | src/api/index.ts:34-60 | A call's result reaches its caller exactly when the interceptor resolved it (a 2xx code), carrying that envelope's code, message and data. Otherwise it arrives as a thrown error. |
| `Flows.FetchByBackendCode` | src/stores/modules/user.ts:67-78 | Through the interceptor, code 200 updates the user, another 2xx code changes nothing, and every other code logs the user out. |
| `Flows.LoginByBackendCode` | src/stores/modules/user.ts:17-44 | Through the interceptor, login succeeds exactly on 200. Another 2xx code is refused with the server's message. Any other code changes nothing. |
| `Flows.TokenReachesRequests` | src/api/index.ts:17-24 | After a successful login, requests carry "Bearer " + the new token. After a logout, the interceptor adds no Authorization header. |
| `Flows.ProtectedPageRoundTrip` | src/router/index.ts:106-109 | An anonymous visit to a protected route is sent to login with the full path. The login panel then navigates back to exactly that path after a successful login, and the guard lets the logged-in user through. |
| `Flows.LogoutLocksProtectedPages` | src/router/index.ts:96-113 | After a logout, every requiresAuth route sends the user to login and every other route proceeds. |
| `Flows.ErrorPagesArePublic` | src/api/index.ts:42-55 | The pages the interceptor navigates to never require login. /401 and /403 are public routes, and /404 matches no declared path, so the public catch-all serves it. |

## Left out

- Order payment lifecycle: no code in the repository polls an order, enforces
  an expiry deadline or orders status transitions. The order API module and the
  order store only forward requests, so that behaviour is not modelled, and
  `Order` is only a record.
- The audio visualizer (Web Audio, canvas, animation frames, floating-point
  geometry) and the theme's view-transition animation with its clip radius:
  DOM animation and floating point. `ToggleTheme` takes whether transitions are
  enabled as an input, and both paths have the same state effect.
- The thin request wrappers for courses, music, users and orders, and the
  build, style and application wiring: they contain no logic.
- JSON: `JSON.stringify` and `JSON.parse` of the user record are not modelled.
  The "userInfo" key holds the `User` record itself (`Stored.Record`).
- UserStore.Restore: a "userInfo" value that is plain text is read as no user.
  The source would run `JSON.parse` on it, which may throw.
- Api.RequestConfig.Intercept: a serialised record stored under "token" gives
  no header. The source would send its JSON text as the token.
- Toasts, `router.push`, `console.log` and focus changes are not performed.
  Toasts and navigation are returned as values where a caller can observe them.
  The captcha image request and the 150 ms panel swap are left out.
- Asynchrony: the login and registration submits run to completion in one
  step, so their `loading` and `registering` flags are only observable as
  their final values. Sending the registration code is split into `BeginSend`
  and `FinishSend`, so the in-flight guard is visible.
- Clearing the registration countdown's interval when the panel is unmounted
  is left out: it is component lifecycle.
- RateLimit.Throttle.Call: `fn` is assumed to return normally. In the source,
  a throwing `fn` propagates before `lastTime` is updated. Its run then leaves
  `lastTime` as it was and does not count toward the spacing. The model always
  records the run, so the spacing properties hold only for calls whose `fn`
  returns.
- Debounce: after the timer fires, the source keeps its stale timer id, and a
  later `clearTimeout` on it does nothing. The model empties the slot instead,
  which has the same observable effect.
- Numbers: times, delays, codes and the order `amount` are unbounded
  integers. Fractional prices (an amount such as 29.00), fractional times and
  NaN are not modelled. The response `code` is any integer, since the
  declared union type is not checked at run time.
- Route matching by path pattern (vue-router's matcher), the `keepAlive` meta,
  and `router.onError`: the guard receives the matched route's name,
  `requiresAuth` and full path.
- The composition-input (IME) guard of the captcha inputs' model binding.
