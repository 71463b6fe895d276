/**
 * The controller over a run of events, the invariant every run keeps, and the
 * behaviour across page loads that follows from the transitions.
 */
module SessionTrace {
  import opened JsValues
  import opened SessionModel

  /** What can happen to the controller, one event at a time. */
  datatype Event =
    | Reload(now: int)                                           // the page is loaded again
    | LoginReply(status: int, login: LoginPayload, now: int)     // a login response arrives
    | SignupReply(status: int, signup: SignupPayload)            // a signup response arrives
    | LogoutClicked                                              // a page calls the logout callback
    | TimerFired(index: nat)                                     // the pending timer at `index` fires

  /** One event. A timer that is not pending cannot fire, so such an event changes nothing. */
  function Step(w: World, e: Event): (r: World)
  {
    match e
    case Reload(now) => Boot(w.store, now)
    case LoginReply(status, p, now) => Login(w, status, p, now)
    case SignupReply(status, p) => Signup(w, status, p)
    case LogoutClicked => Logout(w)
    case TimerFired(i) => if i < |w.pending| then FireTimer(w, i) else w
  }

  function Run(w: World, events: seq<Event>): (r: World)
    decreases |events|
  {
    if events == [] then w else Run(Step(w, events[0]), events[1..])
  }

  /** The stored record is all or nothing: `token`, `expiryDate` and `userId` are present together. */
  predicate Paired(store: Store)
  {
    (TokenKey in store <==> ExpiryKey in store) && (TokenKey in store <==> UserIdKey in store)
  }

  /**
   * While authenticated, the store holds the session's token and an expiry,
   * and some pending timer is due exactly at that expiry.
   */
  predicate Armed(w: World)
  {
    w.session.isAuth ==>
      && TokenKey in w.store && w.store[TokenKey] == Text(ToStorageString(w.session.token))
      && ExpiryKey in w.store && w.store[ExpiryKey].Millis?
      && w.store[ExpiryKey].ms in w.pending
  }

  predicate Inv(w: World)
  {
    WellFormed(w.store) && Paired(w.store) && Armed(w)
  }

  /** A page load over a well-formed, all-or-nothing store starts in the invariant. */
  lemma BootEstablishesInv(store: Store, now: int)
    requires WellFormed(store) && Paired(store)
    ensures Inv(Boot(store, now))
  {
  }

  /** Every event keeps the invariant. */
  lemma StepPreservesInv(w: World, e: Event)
    requires Inv(w)
    ensures Inv(Step(w, e))
  {
  }

  lemma {:induction false} RunPreservesInv(w: World, events: seq<Event>)
    requires Inv(w)
    ensures Inv(Run(w, events))
    decreases |events|
  {
    if events != [] {
      StepPreservesInv(w, events[0]);
      RunPreservesInv(Step(w, events[0]), events[1..]);
    }
  }

  /** Every event keeps `Armed` on its own, whatever the store holds. */
  lemma StepPreservesArmed(w: World, e: Event)
    requires Armed(w)
    ensures Armed(Step(w, e))
  {
  }

  lemma {:induction false} RunPreservesArmed(w: World, events: seq<Event>)
    requires Armed(w)
    ensures Armed(Run(w, events))
    decreases |events|
  {
    if events != [] {
      StepPreservesArmed(w, events[0]);
      RunPreservesArmed(Step(w, events[0]), events[1..]);
    }
  }

  /**
   * From any page load, over any store, whatever happens next: an authenticated session always has a timer pending that is
   * due at its stored expiry.
   */
  lemma {:induction false} AlwaysArmed(store: Store, now: int, events: seq<Event>)
    ensures Armed(Run(Boot(store, now), events))
  {
    RunPreservesArmed(Boot(store, now), events);
  }

  /**
   * A successful login survives a page load within its hour: the session is
   * restored with the token, `userId` and `isAdmin` as the store converted
   * them, and the one new timer is due when the original one was.
   */
  lemma LoginThenReload(w: World, status: int, p: LoginPayload, now: int, later: int)
    requires IsSuccess(status) && p.token != Str("")
    requires later < now + SessionDuration
    ensures var r := Boot(Login(w, status, p, now).store, later);
      && r.session == Session(true, Str(ToStorageString(p.token)), Str(ToStorageString(p.userId)),
                              Str(ToStorageString(p.isAdmin)))
      && r.pending == [now + SessionDuration]
  {
  }

  /**
   * A login does not survive a page load after its hour: the load logs out,
   * which removes the token, `userId` and expiry but keeps the `isAdmin` entry.
   */
  lemma LoginThenLateReload(w: World, status: int, p: LoginPayload, now: int, later: int)
    requires IsSuccess(status) && p.token != Str("")
    requires now + SessionDuration <= later
    ensures var r := Boot(Login(w, status, p, now).store, later);
      && !r.session.isAuth && r.pending == []
      && TokenKey !in r.store && UserIdKey !in r.store && ExpiryKey !in r.store
      && r.store[IsAdminKey] == Text(ToStorageString(p.isAdmin))
  {
  }

  /**
   * A login whose body token is the empty string stores it, but a later page
   * load reads the empty token as absent: it neither restores nor logs out, so
   * the stored `userId` and expiry stay and no timer is armed.
   */
  lemma EmptyTokenIgnoredOnReload(w: World, status: int, p: LoginPayload, now: int, later: int)
    requires IsSuccess(status) && p.token == Str("")
    ensures var stored := Login(w, status, p, now).store;
      var r := Boot(stored, later);
      && !r.session.isAuth && r.pending == [] && r.store == stored
      && UserIdKey in r.store && r.store[ExpiryKey] == Millis(now + SessionDuration)
  {
  }

  /**
   * The admin flag changes type across a page load: a login whose body says
   * `isAdmin: false` leaves the string "false" in state after a reload, and
   * that string is truthy.
   */
  lemma AdminFlagBecomesText(w: World, status: int, token: Value, userId: Value, now: int, later: int)
    requires IsSuccess(status) && token != Str("")
    requires now <= later < now + SessionDuration
    ensures var r := Boot(Login(w, status, LoginPayload(token, userId, Bool(false)), now).store, later);
      r.session.isAdmin == Str("false") && Truthy(r.session.isAdmin)
  {
  }

  /**
   * Arming a new timer never cancels an older one: after a second successful
   * login, the first login's timer is still pending, is due before the stored
   * expiry, and when it fires it ends the newer session.
   */
  lemma StaleTimerEndsNewerSession(w: World, p1: LoginPayload, p2: LoginPayload, t1: int, t2: int)
    requires t1 < t2
    ensures var w2 := Login(Login(w, 200, p1, t1), 200, p2, t2);
      && |w2.pending| == |w.pending| + 2
      && w2.pending[|w.pending|] == t1 + SessionDuration
      && w2.store[ExpiryKey] == Millis(t2 + SessionDuration)
      && w2.pending[|w.pending|] < w2.store[ExpiryKey].ms
      && w2.session.isAuth
      && !FireTimer(w2, |w.pending|).session.isAuth
  {
  }

  /**
   * Logout leaves the timers pending: after a logout and a new login, a timer
   * armed before the logout still ends the new session when it fires.
   */
  lemma TimerOutlivesLogout(w: World, i: nat, p: LoginPayload, now: int)
    requires i < |w.pending|
    ensures var w2 := Login(Logout(w), 201, p, now);
      && w2.session.isAuth && w2.store[ExpiryKey] == Millis(now + SessionDuration)
      && i < |w2.pending| && w2.pending[i] == w.pending[i]
      && !FireTimer(w2, i).session.isAuth
  {
  }

  /** A signup response, whatever it says, leaves the user unauthenticated and touches neither store nor timers. */
  lemma {:induction false} SignupsNeverAuthenticate(w: World, replies: seq<(int, SignupPayload)>)
    ensures var events := seq(|replies|, i requires 0 <= i < |replies| => SignupReply(replies[i].0, replies[i].1));
      var r := Run(w, events);
      (|replies| > 0 ==> !r.session.isAuth) && r.store == w.store && r.pending == w.pending
    decreases |replies|
  {
    var events := seq(|replies|, i requires 0 <= i < |replies| => SignupReply(replies[i].0, replies[i].1));
    if |replies| > 0 {
      var w1 := Step(w, events[0]);
      SignupsNeverAuthenticate(w1, replies[1..]);
      var rest := seq(|replies| - 1, i requires 0 <= i < |replies| - 1 => SignupReply(replies[1..][i].0, replies[1..][i].1));
      assert events[1..] == rest;
      if |replies| > 1 {
        assert !Run(w1, rest).session.isAuth;
      }
    }
  }
}
