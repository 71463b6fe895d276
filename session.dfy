/**
 * The session controller of the root component `App`, as transitions on one
 * value: the in-memory session fields, the durable store, and the pending
 * auto-logout timers. Each transition is what one handler does once its input
 * (a start-up, a click, a received HTTP response, a timer firing) is given.
 */
module SessionModel {
  import opened Wrappers
  import opened JsValues

  /** The lifetime a successful login gives a session: one hour, in milliseconds. */
  const SessionDuration: int := 60 * 60 * 1000

  /** The component state `isAuth`, `token`, `userId`, `isAdmin`. */
  datatype Session = Session(isAuth: bool, token: Value, userId: Value, isAdmin: Value)

  /** The state the component is constructed with. */
  const InitialSession: Session := Session(false, Null, Null, Bool(false))

  /**
   * Everything the controller changes: its state, the store, and the pending
   * auto-logout timers as the absolute instants (in milliseconds) at which they
   * fire, in the order they were armed.
   */
  datatype World = World(session: Session, store: Store, pending: seq<int>)

  /** The parsed JSON body of a login response. */
  datatype LoginPayload = LoginPayload(token: Value, userId: Value, isAdmin: Value)

  /** The parsed JSON body of a signup response. */
  datatype SignupPayload = SignupPayload(userId: Value)

  /** The errors the handlers raise and log. */
  datatype AuthError = CouldNotAuthenticate | ValidationFailed | CreatingUserFailed

  function Message(e: AuthError): (m: string)
  {
    match e
    case CouldNotAuthenticate => "Could not authenticate you!"
    case ValidationFailed => "Validation failed. Make sure the email address isn't used yet!"
    case CreatingUserFailed => "Creating a user failed!"
  }

  /** The three errors carry three different messages. */
  lemma MessagesDistinct(e1: AuthError, e2: AuthError)
    ensures Message(e1) == Message(e2) <==> e1 == e2
  {
  }

  /** How a handler ends: normally, by navigating to a path, or with a logged error. */
  datatype Outcome = Done | NavigateTo(path: string) | Failed(error: AuthError)

  /** The statuses both handlers accept as success. */
  predicate IsSuccess(status: int)
  {
    status == 200 || status == 201
  }

  /** The login handler accepts 200 and 201 and rejects every other status with one error. */
  function LoginOutcome(status: int): (o: Outcome)
    ensures o == Done <==> IsSuccess(status)
    ensures o != Done ==> o == Failed(CouldNotAuthenticate)
  {
    if status != 200 && status != 201 then Failed(CouldNotAuthenticate) else Done
  }

  /**
   * The signup handler tells 422 (validation failed) apart from every other
   * rejected status (creating a user failed), and navigates to "/" on success.
   */
  function SignupOutcome(status: int): (o: Outcome)
    ensures o == NavigateTo("/") <==> IsSuccess(status)
    ensures o == Failed(ValidationFailed) <==> status == 422
    ensures o == Failed(CreatingUserFailed) <==> !IsSuccess(status) && status != 422
  {
    if status == 422 then Failed(ValidationFailed)
    else if status != 200 && status != 201 then Failed(CreatingUserFailed)
    else NavigateTo("/")
  }

  /**
   * `logoutHandler`: the session is no longer authenticated and has no token,
   * the store loses exactly `token`, `expiryDate` and `userId`; `userId` and
   * `isAdmin` in state, the `isAdmin` entry and the pending timers all stay.
   */
  function Logout(w: World): (r: World)
    ensures !r.session.isAuth && r.session.token == Null
    ensures r.session.userId == w.session.userId && r.session.isAdmin == w.session.isAdmin
    ensures r.store.Keys == w.store.Keys - {TokenKey, ExpiryKey, UserIdKey}
    ensures forall k :: k in r.store ==> r.store[k] == w.store[k]
    ensures r.pending == w.pending
  {
    var store := RemoveItem(RemoveItem(RemoveItem(w.store, TokenKey), ExpiryKey), UserIdKey);
    World(w.session.(isAuth := false, token := Null), store, w.pending)
  }

  /** A second logout changes nothing further. */
  lemma LogoutIdempotent(w: World)
    ensures Logout(Logout(w)) == Logout(w)
  {
  }

  /**
   * `setAutoLogout(ms)`: one more timer, due `ms` after `now`, joins the pending
   * ones; none of those is cancelled and nothing else changes.
   */
  function SetAutoLogout(w: World, ms: int, now: int): (r: World)
    ensures r.session == w.session && r.store == w.store
    ensures |r.pending| == |w.pending| + 1
    ensures r.pending[..|w.pending|] == w.pending && r.pending[|w.pending|] == now + ms
  {
    w.(pending := w.pending + [now + ms])
  }

  /**
   * The timer at position `i` fires: it leaves the pending list, and the
   * logout handler runs on whatever session is current.
   */
  function FireTimer(w: World, i: nat): (r: World)
    requires i < |w.pending|
    ensures r.session == Logout(w).session && r.store == Logout(w).store
    ensures |r.pending| == |w.pending| - 1
    ensures multiset(r.pending) == multiset(w.pending) - multiset{w.pending[i]}
  {
    assert w.pending == w.pending[..i] + [w.pending[i]] + w.pending[i + 1..];
    Logout(w.(pending := w.pending[..i] + w.pending[i + 1..]))
  }

  /** A timer armed and then fired amounts to one logout, with the pending list as it was. */
  lemma FireAfterArm(w: World, ms: int, now: int)
    ensures FireTimer(SetAutoLogout(w, ms, now), |w.pending|) == Logout(w)
  {
  }

  /** The store holds what start-up restores from: a non-empty token and an expiry instant. */
  predicate HasRecord(store: Store)
  {
    && TokenKey in store && store[TokenKey].Text? && store[TokenKey].text != ""
    && ExpiryKey in store && store[ExpiryKey].Millis?
  }

  /**
   * `componentDidMount` at clock `now`. Without a stored token or expiry it
   * changes nothing. With an expiry at or before `now` it is a logout and
   * arms nothing. Otherwise the session becomes authenticated with the stored
   * token, `userId` and `isAdmin` (null where an entry is missing), the store
   * is left as it is, and exactly one timer is armed, for the remaining
   * `expiry - now > 0` milliseconds, so it is due at the stored expiry.
   */
  function Restore(w: World, now: int): (r: World)
    ensures !HasRecord(w.store) ==> r == w
    ensures HasRecord(w.store) && w.store[ExpiryKey].ms <= now ==> r == Logout(w)
    ensures HasRecord(w.store) && now < w.store[ExpiryKey].ms ==>
      && r.session == Session(true, Str(w.store[TokenKey].text),
                              GetItem(w.store, UserIdKey), GetItem(w.store, IsAdminKey))
      && r.store == w.store
      && |r.pending| == |w.pending| + 1 && r.pending[..|w.pending|] == w.pending
      && r.pending[|w.pending|] == w.store[ExpiryKey].ms
      && r.pending[|w.pending|] - now > 0
  {
    var token := GetItem(w.store, TokenKey);
    var expiryDate := GetExpiry(w.store);
    if !Truthy(token) || expiryDate.None? then w
    else if expiryDate.value <= now then Logout(w)
    else
      var userId := GetItem(w.store, UserIdKey);
      var isAdmin := GetItem(w.store, IsAdminKey);
      var remaining := expiryDate.value - now;
      SetAutoLogout(w.(session := Session(true, token, userId, isAdmin)), remaining, now)
  }

  /** Restoring an expired record twice changes nothing after the first time. */
  lemma RestoreExpiredIdempotent(w: World, now: int)
    requires HasRecord(w.store) && w.store[ExpiryKey].ms <= now
    ensures Restore(Restore(w, now), now) == Restore(w, now)
  {
  }

  /** The four keys a successful login writes. */
  const RecordKeys: set<string> := {TokenKey, UserIdKey, IsAdminKey, ExpiryKey}

  /**
   * The login handler once the response with `status` and body `p` has
   * arrived at clock `now`. A status other than 200 or 201 only clears
   * `isAuth`: token, `userId`, `isAdmin`, the store and the timers stay. A
   * success authenticates with the three values of the body, stores them
   * (as text) with the expiry `now + SessionDuration`, keeps every other
   * entry, and adds one timer due at that expiry to the ones still pending.
   */
  function Login(w: World, status: int, p: LoginPayload, now: int): (r: World)
    ensures !IsSuccess(status) ==>
      && !r.session.isAuth
      && r.session.token == w.session.token && r.session.userId == w.session.userId
      && r.session.isAdmin == w.session.isAdmin
      && r.store == w.store && r.pending == w.pending
    ensures IsSuccess(status) ==>
      && r.session == Session(true, p.token, p.userId, p.isAdmin)
      && r.store.Keys == w.store.Keys + RecordKeys
      && r.store[TokenKey] == Text(ToStorageString(p.token))
      && r.store[UserIdKey] == Text(ToStorageString(p.userId))
      && r.store[IsAdminKey] == Text(ToStorageString(p.isAdmin))
      && r.store[ExpiryKey] == Millis(now + SessionDuration)
      && (forall k :: k in w.store && k !in RecordKeys ==> r.store[k] == w.store[k])
      && |r.pending| == |w.pending| + 1 && r.pending[..|w.pending|] == w.pending
      && r.pending[|w.pending|] == now + SessionDuration
  {
    if status != 200 && status != 201 then
      w.(session := w.session.(isAuth := false))
    else
      var session := Session(true, p.token, p.userId, p.isAdmin);
      var store := SetItem(SetItem(SetItem(w.store, TokenKey, p.token), UserIdKey, p.userId), IsAdminKey, p.isAdmin);
      var remaining := SessionDuration;
      var expiryDate := now + remaining;
      SetAutoLogout(World(session, SetExpiry(store, expiryDate), w.pending), remaining, now)
  }

  /**
   * The signup handler once the response with `status` and body `p` has
   * arrived. It never authenticates: `isAuth` ends false whatever the status.
   * On success `userId` is taken from the body; the token, `isAdmin`, the
   * store and the timers never change.
   */
  function Signup(w: World, status: int, p: SignupPayload): (r: World)
    ensures !r.session.isAuth
    ensures r.session.token == w.session.token && r.session.isAdmin == w.session.isAdmin
    ensures r.session.userId == (if IsSuccess(status) then p.userId else w.session.userId)
    ensures r.store == w.store && r.pending == w.pending
  {
    if status == 422 || (status != 200 && status != 201) then
      w.(session := w.session.(isAuth := false))
    else
      w.(session := w.session.(isAuth := false, userId := p.userId))
  }

  /**
   * A page load: a freshly constructed component (initial state, no timers)
   * over the store as it was left, followed by `componentDidMount`. It is
   * authenticated exactly when the store holds an unexpired record, and then
   * has exactly one timer, due at the stored expiry.
   */
  function Boot(store: Store, now: int): (r: World)
    ensures r.session.isAuth <==> HasRecord(store) && now < store[ExpiryKey].ms
    ensures r.session.isAuth ==> r.pending == [store[ExpiryKey].ms]
    ensures !r.session.isAuth ==> r.pending == []
  {
    Restore(World(InitialSession, store, []), now)
  }
}
