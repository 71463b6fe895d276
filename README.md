# Session controller of the storefront's root component

This project models the session controller built into the `App` class of the
storefront's React client (`client/src/App.js`). The controller owns four state
fields, `isAuth`, `token`, `userId` and `isAdmin`. The browser's durable
key-value store (`localStorage`) mirrors `token`, `userId` and `isAdmin` under
those keys, plus the session's expiry under `expiryDate`; `isAuth` is never
stored. It arms auto-logout timers, and it picks the
page `render` shows for a path.

The model has two layers.

- **Transitions as functions** (`SessionModel`). A `World` value holds the
  session, the store (a `map<string, Entry>`) and the pending timers (a
  sequence of the instants, in milliseconds, at which they are due). The
  handlers are functions on it: start-up restore, logout, the login and signup
  handlers once their response has arrived, arming a timer, and a timer firing.
  Their contracts state what each one changes and what it leaves alone.
- **The component as an object** (`Controller.App`). A class with the same
  fields. Its methods update them step by step, like the handlers do. Each method is
  proved to have exactly the effect of its `SessionModel` function, and
  `render` is a method that only reads.

On top of these layers, `SessionTrace` runs the controller over any sequence of
events: page loads, login and signup replies, logout clicks and timer firings.
It proves an invariant that every run keeps: while authenticated, the store
holds the session's token and an expiry, and some pending timer is due exactly
at that expiry. It also proves how a session behaves across page loads and the
effect of timers that are never cancelled. `Routes` models route selection as
react-router's `Switch` semantics (the first matching child wins) over the two
route tables.

The clock is a parameter `now` in milliseconds. An HTTP response is its status
code plus the parsed body. The expiry is stored as an integer number of
milliseconds, not as ISO-8601 text.

The model follows the code, including these behaviours:

- Re-arming never cancels an earlier timer. Logout cancels no timer either.
  `StaleTimerEndsNewerSession` shows that after a second login the first
  login's timer ends the newer session before that session's stored expiry.
  `TimerOutlivesLogout` shows that a timer armed before a logout still ends the
  session of a later login when it fires.
- Logout keeps `userId` and `isAdmin` in state and keeps the `isAdmin` entry in
  the store.
- A failed login only clears `isAuth`. The token, `userId` and `isAdmin` stay.
- For an authenticated user, unknown paths match nothing. They are not
  redirected.
- A login can leave more than one timer pending.
- A login whose body token is the empty string stores it, but a later page load
  treats the empty token as absent: it neither restores the session nor logs
  out, so `userId` and `expiryDate` stay stored (`EmptyTokenIgnoredOnReload`).

## Model

| member | source | states |
|---|---|---|
| `JsValues.ToStorageString` | client/src/App.js:83-85 | the store keeps a string unchanged; the stored text is empty only for the empty string, so `null` and booleans read back truthy |
| `JsValues.GetItem` | client/src/App.js:35-45 | reading a text key gives `null` exactly when no text entry is stored, else that entry's string |
| `JsValues.GetExpiry` | client/src/App.js:36 | reading `expiryDate` gives an instant exactly when one is stored |
| `JsValues.SetItem` | client/src/App.js:83-85 | writing a key adds it, stores the value's text there, and keeps every other entry |
| `JsValues.SetExpiry` | client/src/App.js:87-90 | writing the expiry stores that instant under `expiryDate` and keeps every other entry |
| `JsValues.RemoveItem` | client/src/App.js:52-54 | removing a key drops exactly that key; removing a missing key changes nothing |
| `JsValues.GetAfterSet` | client/src/App.js:83-85 | what was written reads back as its stored text, truthy unless it was the empty string |
| `Routes.Switch` | client/src/App.js:149-173 | a `Switch` shows the first child that matches the path, and nothing exactly when no child matches |
| `Routes.Render` | client/src/App.js:147-232 | unauthenticated: Login exactly at `/`, Signup exactly at `/signup`, a redirect to `/` exactly elsewhere; authenticated: Home, AddProduct, Products, Cart exactly at `/`, `/admin`, `/products`, `/viewcart`, and no match exactly at every other path |
| `Routes.Gating` | client/src/App.js:175-226 | a page behind the gate is shown only when authenticated; only unauthenticated users are redirected; only authenticated users can hit no match |
| `Routes.RedirectSettles` | client/src/App.js:171 | following the redirect leads to the login form, so the redirect does not loop |
| `Routes.PropsFor` | client/src/App.js:154-224 | Login and Signup get their form handlers; the other pages get `userId` and `token`, and `isAdmin` on all of them except AddProduct |
| `SessionModel.MessagesDistinct` | client/src/App.js:71-125 | the three error messages are pairwise different |
| `SessionModel.LoginOutcome` | client/src/App.js:68-72 | login succeeds exactly for status 200 or 201 and otherwise fails with "could not authenticate" |
| `SessionModel.SignupOutcome` | client/src/App.js:117-132 | signup navigates to `/` exactly for 200 or 201, fails with "validation failed" exactly for 422, and fails with "creating a user failed" for every other status |
| `SessionModel.Logout` | client/src/App.js:50-55 | logout clears `isAuth` and the token, removes exactly `token`, `expiryDate` and `userId` from the store, and keeps `userId`/`isAdmin` in state, the `isAdmin` entry and all timers |
| `SessionModel.LogoutIdempotent` | client/src/App.js:50-55 | a second logout changes nothing further |
| `SessionModel.SetAutoLogout` | client/src/App.js:141-145 | arming adds one timer due `ms` after `now` behind the pending ones and cancels none |
| `SessionModel.FireTimer` | client/src/App.js:142-144 | a firing timer leaves the pending list (exactly one occurrence) and the logout runs |
| `SessionModel.FireAfterArm` | client/src/App.js:141-145 | arming a timer and firing it is the same as one logout, with the pending timers as before |
| `SessionModel.Restore` | client/src/App.js:34-49 | no non-empty token or no expiry: nothing changes; expiry at or before now: exactly a logout, with no timer and no `isAuth`; later expiry: authenticated with the stored token, `userId`, `isAdmin`, store unchanged, exactly one new timer for the remaining `expiry - now > 0` ms |
| `SessionModel.RestoreExpiredIdempotent` | client/src/App.js:40-43 | restoring an expired record a second time changes nothing further |
| `SessionModel.Login` | client/src/App.js:68-98 | a rejected status only clears `isAuth`: the token, `userId`, `isAdmin`, the store and the timers stay; a success takes the three values from the body, stores them with expiry `now + 3600000`, keeps other entries, and adds one timer due then, after the earlier timers, which all remain |
| `SessionModel.Signup` | client/src/App.js:117-139 | signup never authenticates; only a success changes `userId` (to the body's); the token, `isAdmin`, store and timers never change |
| `SessionModel.Boot` | client/src/App.js:13-49 | a page load is authenticated exactly when the store holds an unexpired record, and then has exactly one timer, due at the stored expiry; otherwise none |
| `SessionTrace.BootEstablishesInv` | client/src/App.js:34-49 | a page load over a consistent store starts in the invariant |
| `SessionTrace.StepPreservesInv` | client/src/App.js:34-145 | every event keeps the invariant: a consistent store, all-or-nothing `token`/`expiryDate`/`userId`, and, while authenticated, the session's token stored and a timer pending at the stored expiry |
| `SessionTrace.RunPreservesInv` | client/src/App.js:34-145 | every sequence of events keeps the invariant |
| `SessionTrace.StepPreservesArmed` | client/src/App.js:34-145 | every event keeps the armed property on its own: while authenticated, the session's token is stored and a timer is pending at the stored expiry |
| `SessionTrace.RunPreservesArmed` | client/src/App.js:34-145 | every sequence of events keeps the armed property |
| `SessionTrace.AlwaysArmed` | client/src/App.js:34-145 | after any run from a page load over any store, an authenticated session has a timer pending at its stored expiry |
| `SessionTrace.LoginThenReload` | client/src/App.js:35-48 | for a login whose body token is non-empty, a page load within the hour after it restores the body's values as stored text, with one timer due when the original was |
| `SessionTrace.LoginThenLateReload` | client/src/App.js:40-43 | for a login whose body token is non-empty, a page load after the hour logs out, with no timer, and only the `isAdmin` entry is left of the record |
| `SessionTrace.EmptyTokenIgnoredOnReload` | client/src/App.js:35-39 | a login whose body token is empty, followed by any page load, neither restores nor logs out: the store stays as the login left it, with `userId` and the expiry, and no timer is armed |
| `SessionTrace.AdminFlagBecomesText` | client/src/App.js:45-85 | a login whose body token is non-empty and whose `isAdmin` is `false`, followed by a reload within the hour, leaves the truthy string `"false"` in state |
| `SessionTrace.StaleTimerEndsNewerSession` | client/src/App.js:91-145 | after two logins the first timer is still pending, due before the stored expiry, and firing it ends the newer session |
| `SessionTrace.TimerOutlivesLogout` | client/src/App.js:50-145 | logout cancels no timer: one armed before it is still pending after a new login (whose expiry is `now + 3600000`) and ends that session when it fires |
| `SessionTrace.SignupsNeverAuthenticate` | client/src/App.js:129-139 | any run of signup replies ends unauthenticated, with the store and the timers untouched |
| `Controller.App.constructor` | client/src/App.js:13-21 | the component starts unauthenticated with null token and `userId`, `isAdmin` false, over the given store, with no timers |
| `Controller.App.Restore` | client/src/App.js:34-49 | `componentDidMount` has exactly the effect of `SessionModel.Restore` |
| `Controller.App.Logout` | client/src/App.js:50-55 | `logoutHandler` has exactly the effect of `SessionModel.Logout` |
| `Controller.App.HandleLogin` | client/src/App.js:68-98 | the login response handling has exactly the effect of `SessionModel.Login` and ends as `SessionModel.LoginOutcome` says |
| `Controller.App.HandleSignup` | client/src/App.js:117-139 | the signup response handling has exactly the effect of `SessionModel.Signup` and ends as `SessionModel.SignupOutcome` says |
| `Controller.App.SetAutoLogout` | client/src/App.js:141-145 | `setAutoLogout` has exactly the effect of `SessionModel.SetAutoLogout` |
| `Controller.App.FireTimer` | client/src/App.js:142-144 | a timer firing has exactly the effect of `SessionModel.FireTimer` |
| `Controller.App.Render` | client/src/App.js:147-232 | `render` shows what `Routes.Render` selects for the current `isAuth` and passes the page the props `Routes.PropsFor` gives from the current state |
| `Controller.RestoreScenario` | client/src/App.js:34-48 | a cold start over `{token: "t1", userId: "u1", isAdmin: "false"}` with an expiry an hour ahead restores exactly those values, with one timer at the expiry |
| `Controller.LoginScenario` | client/src/App.js:75-91 | a 201 login with body `{token: "tok", userId: "42", isAdmin: "true"}` authenticates with those values, stores expiry `now + 3600000`, and arms one timer for then |

## Left out

- Network I/O is not modelled: `fetch`, the request URLs, bodies and headers, and `res.json()`. A handler receives the status and the parsed body. A transport failure or an unparsable body (both end in the `catch` that clears `isAuth`) is not modelled separately.
- JSON stringification and ISO-8601 formatting and parsing of `expiryDate` are not modelled. The expiry is an integer. A non-date text under `expiryDate` is read as absent. The component would instead construct an Invalid Date and restore the session with a timer of NaN milliseconds.
- The real clock is a parameter. The component reads it more than once per handler: `componentDidMount` at App.js:40 and App.js:46, the login handler at App.js:88, and `setTimeout` takes its own start time at App.js:142. The model reads one `now` per handler.
- `setTimeout` scheduling is not modelled. A timer is a pending deadline that may fire in any order. The browser's clamping of delays above 2^31-1 ms to an immediate firing is not modelled.
- `SessionModel.FireTimer` does not require that the clock has reached the timer's deadline; time does not advance in the model.
- `Routes.Render` matches paths by exact string equality. react-router's case-insensitive, trailing-slash-tolerant matching is not modelled. The outer `Switch` around the chosen routes is left out because it renders its only child whatever the path.
- React plumbing is not modelled: `setState` batching, JSX, `withRouter`, `history.replace` (modelled only as the `NavigateTo("/")` outcome), `event.preventDefault` and `console.log`. The logged error is returned as the handler's `Outcome`.
- The page components (Home, AddProduct, Products, Cart, Login, Signup) are not modelled. Only the props they receive are.
- Overlapping in-flight login or signup requests are not modelled: each response is handled as one step.
- The session fields take only `null`, boolean and string values. Other JSON values a response body might carry, such as numbers or `undefined`, are not modelled.
