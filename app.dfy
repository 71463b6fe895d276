/**
 * The root component `App` as an object: its state fields, the durable store
 * and the pending auto-logout timers are fields that the handlers update in
 * place, one statement at a time, as the component does. Each handler is
 * proved to have exactly the effect of the matching transition of
 * `SessionModel`, whose properties are proved there and in `SessionTrace`.
 */
module Controller {
  import opened Wrappers
  import opened JsValues
  import S = SessionModel
  import Routes

  class App {
    var isAuth: bool
    var token: Value
    var userId: Value
    var isAdmin: Value
    /** The browser's `localStorage`. */
    var storage: Store
    /** The instants at which the timers armed so far and not yet fired are due. */
    var pending: seq<int>

    function Snapshot(): S.World
      reads this
    {
      S.World(S.Session(isAuth, token, userId, isAdmin), storage, pending)
    }

    /** A new component over the store as the browser has it; no timer is pending yet. */
    constructor (store: Store)
      ensures Snapshot() == S.World(S.InitialSession, store, [])
    {
      isAuth, token, userId, isAdmin := false, Null, Null, Bool(false);
      storage := store;
      pending := [];
    }

    /** `componentDidMount` at clock `now`. */
    method Restore(now: int)
      modifies this
      ensures Snapshot() == S.Restore(old(Snapshot()), now)
    {
      var storedToken := GetItem(storage, TokenKey);
      var expiryDate := GetExpiry(storage);
      if !Truthy(storedToken) || expiryDate.None? {
        return;
      }
      if expiryDate.value <= now {
        Logout();
        return;
      }
      var storedUserId := GetItem(storage, UserIdKey);
      var storedIsAdmin := GetItem(storage, IsAdminKey);
      var remaining := expiryDate.value - now;
      isAuth, token, userId, isAdmin := true, storedToken, storedUserId, storedIsAdmin;
      SetAutoLogout(remaining, now);
    }

    /** `logoutHandler`. */
    method Logout()
      modifies this
      ensures Snapshot() == S.Logout(old(Snapshot()))
    {
      isAuth, token := false, Null;
      storage := RemoveItem(storage, TokenKey);
      storage := RemoveItem(storage, ExpiryKey);
      storage := RemoveItem(storage, UserIdKey);
    }

    /** The login handler once the response (`status`, parsed body `reply`) has arrived at clock `now`. */
    method HandleLogin(status: int, reply: S.LoginPayload, now: int) returns (outcome: S.Outcome)
      modifies this
      ensures Snapshot() == S.Login(old(Snapshot()), status, reply, now)
      ensures outcome == S.LoginOutcome(status)
    {
      if status != 200 && status != 201 {
        isAuth := false;
        return S.Failed(S.CouldNotAuthenticate);
      }
      ghost var before := Snapshot();
      isAuth, token, userId, isAdmin := true, reply.token, reply.userId, reply.isAdmin;
      storage := SetItem(storage, TokenKey, reply.token);
      storage := SetItem(storage, UserIdKey, reply.userId);
      storage := SetItem(storage, IsAdminKey, reply.isAdmin);
      var remaining := S.SessionDuration;
      var expiryDate := now + remaining;
      storage := SetExpiry(storage, expiryDate);
      assert Snapshot() == S.World(S.Session(true, reply.token, reply.userId, reply.isAdmin), storage, before.pending);
      SetAutoLogout(remaining, now);
      outcome := S.Done;
    }

    /** The signup handler once the response (`status`, parsed body `reply`) has arrived. */
    method HandleSignup(status: int, reply: S.SignupPayload) returns (outcome: S.Outcome)
      modifies this
      ensures Snapshot() == S.Signup(old(Snapshot()), status, reply)
      ensures outcome == S.SignupOutcome(status)
    {
      if status == 422 {
        isAuth := false;
        return S.Failed(S.ValidationFailed);
      }
      if status != 200 && status != 201 {
        isAuth := false;
        return S.Failed(S.CreatingUserFailed);
      }
      isAuth, userId := false, reply.userId;
      outcome := S.NavigateTo("/");
    }

    /** `setAutoLogout(ms)` at clock `now`: arms one more timer. */
    method SetAutoLogout(ms: int, now: int)
      modifies this
      ensures Snapshot() == S.SetAutoLogout(old(Snapshot()), ms, now)
    {
      pending := pending + [now + ms];
    }

    /** The pending timer at position `i` fires and runs the logout handler. */
    method FireTimer(i: nat)
      requires i < |pending|
      modifies this
      ensures Snapshot() == S.FireTimer(old(Snapshot()), i)
    {
      pending := pending[..i] + pending[i + 1..];
      Logout();
    }

    /**
     * `render` at `path`: what the routes show for the current `isAuth`, and
     * for a shown page the props it is given from the current state.
     */
    method Render(path: string) returns (view: Routes.View, props: Option<Routes.Props>)
      ensures view == Routes.Render(isAuth, path)
      ensures view.Show? ==> props == Some(Routes.PropsFor(view.page, userId, token, isAdmin))
      ensures !view.Show? ==> props == None
    {
      view := Routes.Render(isAuth, path);
      props := if view.Show? then Some(Routes.PropsFor(view.page, userId, token, isAdmin)) else None;
    }
  }

  /**
   * The scenario of a cold start over a record that has not expired: the
   * session is restored from it and one timer is due at its expiry.
   */
  method RestoreScenario(now: int) returns (app: App)
    ensures app.isAuth && app.token == Str("t1") && app.userId == Str("u1") && app.isAdmin == Str("false")
    ensures app.pending == [now + S.SessionDuration]
  {
    var store := map[TokenKey := Text("t1"), UserIdKey := Text("u1"), IsAdminKey := Text("false"),
                     ExpiryKey := Millis(now + S.SessionDuration)];
    app := new App(store);
    app.Restore(now);
  }

  /**
   * The scenario of a login answered with 201: the session takes the body's
   * values and the stored expiry is one hour after the response.
   */
  method LoginScenario(now: int) returns (app: App)
    ensures app.isAuth && app.token == Str("tok") && app.userId == Str("42") && app.isAdmin == Str("true")
    ensures ExpiryKey in app.storage && app.storage[ExpiryKey] == Millis(now + 3600000)
    ensures app.pending == [now + 3600000]
  {
    app := new App(map[]);
    app.Restore(now);
    var outcome := app.HandleLogin(201, S.LoginPayload(Str("tok"), Str("42"), Str("true")), now);
  }
}
