/**
 * The session store: a reducer over the authentication state, and the
 * provider's operations (start-up, login, logout, profile patch) that talk to
 * the authentication service, write the tokens to browser storage and dispatch
 * actions to the reducer.
 */
module AuthContext {
  import opened Wrappers
  import opened Api

  /** The signed-in user's record, field by field. */
  type User = map<string, string>

  datatype AuthState = AuthState(user: Option<User>, token: Option<string>, isLoading: bool, isAuthenticated: bool)

  datatype Action =
    | Loading
    | LoginSuccess(user: Option<User>, accessToken: Option<string>)
    | Logout
    | UpdateUser(patch: User)
    | Unknown(kind: string)

  /** `{ ...state.user, ...patch }`: spreading `null` contributes no fields. */
  function Merge(user: Option<User>, patch: User): User {
    if user.Some? then user.value + patch else patch
  }

  /**
   * The reducer. Only `LOGIN_SUCCESS` and `LOGOUT` change authentication or the
   * token, only `LOADING` raises the loading flag, and an unknown action
   * changes nothing.
   */
  function Reduce(s: AuthState, a: Action): (r: AuthState)
    ensures r.isAuthenticated != s.isAuthenticated || r.token != s.token ==> a.LoginSuccess? || a.Logout?
    ensures r.isLoading && !s.isLoading ==> a.Loading?
    ensures a.Unknown? ==> r == s
  {
    match a
    case Loading => s.(isLoading := true)
    case LoginSuccess(user, token) => s.(isLoading := false, isAuthenticated := true, user := user, token := token)
    case Logout => s.(isLoading := false, isAuthenticated := false, user := None, token := None)
    case UpdateUser(patch) => s.(user := Some(Merge(s.user, patch)))
    case Unknown(_) => s
  }

  /** The state before start-up has run: the stored token is read as it is. */
  function InitialState(storage: Storage): (s: AuthState)
    ensures s.isLoading && !s.isAuthenticated && s.user.None?
    ensures s.token == Get(storage, TokenKey)
  {
    AuthState(None, Get(storage, TokenKey), true, false)
  }

  /** The state after a sequence of dispatches. */
  function Run(s: AuthState, actions: seq<Action>): AuthState
    decreases |actions|
  {
    if actions == [] then s else Run(Reduce(s, actions[0]), actions[1..])
  }

  /** The state is only ever authenticated together with a user. */
  predicate Coherent(s: AuthState) {
    s.isAuthenticated ==> s.user.Some?
  }

  /** The action is not a `LOGIN_SUCCESS` whose payload lacks a user record. */
  predicate CarriesUser(a: Action) {
    a.LoginSuccess? ==> a.user.Some?
  }

  /** Every action whose payload carries a user keeps an authenticated state tied to a user. */
  lemma ReducePreservesCoherence(s: AuthState, a: Action)
    requires Coherent(s) && CarriesUser(a)
    ensures Coherent(Reduce(s, a))
  {
  }

  /**
   * The reducer does not check the payload: a `LOGIN_SUCCESS` without a user
   * record signs in all the same, leaving an authenticated state with no user.
   */
  lemma NullUserSignsIn(s: AuthState, token: Option<string>)
    ensures var r := Reduce(s, LoginSuccess(None, token));
      r.isAuthenticated && r.user.None? && !Coherent(r)
  {
  }

  /**
   * `LOADING` only raises the loading flag; `LOGIN_SUCCESS` signs in as the
   * payload's user with the payload's token, whatever the state was.
   */
  lemma LoadingAndLogin(s: AuthState, user: Option<User>, token: Option<string>)
    ensures var r := Reduce(s, Loading);
      r.isLoading && r.user == s.user && r.token == s.token && r.isAuthenticated == s.isAuthenticated
    ensures Reduce(s, LoginSuccess(user, token)) == AuthState(user, token, false, true)
  {
  }

  /** Logging out forgets everything about the previous session. */
  lemma LogoutForgets(s: AuthState, t: AuthState)
    ensures Reduce(s, Logout) == Reduce(t, Logout)
    ensures var r := Reduce(s, Logout); !r.isAuthenticated && !r.isLoading && r.user.None? && r.token.None?
  {
  }

  /**
   * A profile patch wins on every field it names and keeps every other field
   * of the current user; on a signed-out state it becomes the user by itself,
   * still without authentication.
   */
  lemma UpdateUserMerges(s: AuthState, patch: User)
    ensures var r := Reduce(s, UpdateUser(patch));
      r.user.Some? && r.isAuthenticated == s.isAuthenticated && r.token == s.token
    ensures var u := Reduce(s, UpdateUser(patch)).user.value;
      (forall k :: k in patch ==> k in u && u[k] == patch[k]) &&
      (s.user.Some? ==> forall k :: k in s.user.value && k !in patch ==> k in u && u[k] == s.user.value[k]) &&
      (forall k :: k in u ==> k in patch || (s.user.Some? && k in s.user.value))
  {
  }

  /** An action the reducer does not know leaves the state alone; `Loading` twice is `Loading` once. */
  lemma UnknownAndLoading(s: AuthState, kind: string)
    ensures Reduce(s, Unknown(kind)) == s
    ensures Reduce(Reduce(s, Loading), Loading) == Reduce(s, Loading)
  {
  }

  /** Whether `a` ends a session. */
  predicate Ends(a: Action) {
    a.Logout?
  }

  /**
   * After a successful login with a user, the state stays authenticated, with
   * a user, until a logout is dispatched, as long as every later login also
   * carries a user.
   */
  lemma {:induction false} AuthenticatedUntilLogout(s: AuthState, actions: seq<Action>)
    requires s.isAuthenticated && s.user.Some?
    requires forall i :: 0 <= i < |actions| ==> !Ends(actions[i]) && CarriesUser(actions[i])
    ensures Run(s, actions).isAuthenticated && Run(s, actions).user.Some?
    decreases |actions|
  {
    if actions != [] {
      AuthenticatedUntilLogout(Reduce(s, actions[0]), actions[1..]);
    }
  }

  /** Once a logout is dispatched the state is signed out, whatever came before, until the next login. */
  lemma {:induction false} SignedOutUntilLogin(s: AuthState, actions: seq<Action>)
    requires !s.isAuthenticated && s.token.None?
    requires forall i :: 0 <= i < |actions| ==> !actions[i].LoginSuccess?
    ensures !Run(s, actions).isAuthenticated && Run(s, actions).token.None?
    decreases |actions|
  {
    if actions != [] {
      SignedOutUntilLogin(Reduce(s, actions[0]), actions[1..]);
    }
  }

  /**
   * What `localStorage.setItem` stores for a value that may be missing. `None`
   * stands for both `undefined` and `null`: `undefined` is stored as
   * "undefined" and `null` would be stored as "null", and either string is
   * truthy when read back, which is all the model relies on.
   */
  function StoredText(v: Option<string>): string {
    if v.Some? then v.value else "undefined"
  }

  /**
   * The authentication service's answer to a login: the fields of its `data`
   * object, any of which may be missing, or a failure. A reply without a
   * `data` object throws when its token is read, which is the failure case.
   */
  datatype LoginReply =
    | LoginAccepted(user: Option<User>, accessToken: Option<string>, refreshToken: Option<string>)
    | LoginRejected

  /** The answer to `getCurrentUser`: a failed call, or a reply whose `data` may be null. */
  datatype MeReply = MeFailed | MeAnswered(data: Option<User>)

  /**
   * An authenticated state holds the token that is in storage. (The gateway
   * may later refresh the stored token without telling the store.)
   */
  predicate InSync(storage: Storage, s: AuthState) {
    s.isAuthenticated ==> s.token == Get(storage, TokenKey)
  }

  /** The provider: browser storage and the reducer's state. */
  class AuthProvider {
    var storage: Storage
    var state: AuthState

    constructor (storage: Storage)
      ensures this.storage == storage && state == InitialState(storage)
    {
      this.storage := storage;
      state := InitialState(storage);
    }

    method Dispatch(a: Action)
      modifies this`state
      ensures state == Reduce(old(state), a)
    {
      state := Reduce(state, a);
    }

    /**
     * Start-up: with a stored token, asks for the current user (`me`) and
     * signs in with that token and whatever `data` the reply holds, or clears
     * both tokens when the call fails; without a token, signs out.
     */
    method InitAuth(me: MeReply)
      modifies this
      ensures var token := Stored(old(storage), TokenKey);
        if token.Some? && me.MeAnswered? then
          storage == old(storage) && state == Reduce(old(state), LoginSuccess(me.data, token))
        else if token.Some? then
          storage == old(storage) - {TokenKey, RefreshTokenKey} && state == Reduce(old(state), Action.Logout)
        else
          storage == old(storage) && state == Reduce(old(state), Action.Logout)
      ensures InSync(storage, state) && !state.isLoading
      ensures Coherent(state) <==> !(Stored(old(storage), TokenKey).Some? && me == MeAnswered(None))
    {
      var token := Stored(storage, TokenKey);
      if token.Some? {
        if me.MeAnswered? {
          Dispatch(LoginSuccess(me.data, token));
        } else {
          storage := storage - {TokenKey, RefreshTokenKey};
          Dispatch(Action.Logout);
        }
      } else {
        Dispatch(Action.Logout);
      }
    }

    /**
     * Login. The password `verified` means registration already stored the
     * tokens: only the current user is fetched (`me`). Otherwise the service's
     * `reply` is used and both tokens are stored. On any failure the state is
     * signed out and `ok` is false (the error is rethrown).
     */
    method Login(email: string, password: string, me: MeReply, reply: LoginReply) returns (ok: bool)
      modifies this
      ensures var loading := Reduce(old(state), Loading);
        if password == "verified" then
          storage == old(storage) && ok == me.MeAnswered? &&
          state == (if ok then Reduce(loading, LoginSuccess(me.data, Get(old(storage), TokenKey)))
                    else Reduce(loading, Action.Logout))
        else if reply.LoginAccepted? then
          ok && state == Reduce(loading, LoginSuccess(reply.user, reply.accessToken)) &&
          storage == old(storage)[TokenKey := StoredText(reply.accessToken)]
                                 [RefreshTokenKey := StoredText(reply.refreshToken)]
        else
          !ok && storage == old(storage) && state == Reduce(loading, Action.Logout)
      ensures ok <==> state.isAuthenticated
      ensures !state.isLoading
      ensures Coherent(state) <==>
        !ok || (if password == "verified" then me.MeAnswered? && me.data.Some? else reply.LoginAccepted? && reply.user.Some?)
      ensures password != "verified" && reply.LoginAccepted? && reply.accessToken.None? ==> !InSync(storage, state)
      ensures password == "verified" || !reply.LoginAccepted? || reply.accessToken.Some? ==> InSync(storage, state)
    {
      Dispatch(Loading);
      if password == "verified" {
        if me.MeAnswered? {
          Dispatch(LoginSuccess(me.data, Get(storage, TokenKey)));
          return true;
        }
        Dispatch(Action.Logout);
        return false;
      }
      if reply.LoginRejected? {
        Dispatch(Action.Logout);
        return false;
      }
      storage := storage[TokenKey := StoredText(reply.accessToken)];
      storage := storage[RefreshTokenKey := StoredText(reply.refreshToken)];
      Dispatch(LoginSuccess(reply.user, reply.accessToken));
      ok := true;
    }

    /** Logout: whatever the server answers, both tokens are removed and the state signs out. */
    method Logout()
      modifies this
      ensures storage == old(storage) - {TokenKey, RefreshTokenKey}
      ensures state == Reduce(old(state), Action.Logout)
      ensures TokenKey !in storage && RefreshTokenKey !in storage && InSync(storage, state)
    {
      storage := storage - {TokenKey, RefreshTokenKey};
      Dispatch(Action.Logout);
    }

    /** Applies a patch to the current user. */
    method UpdateUser(patch: User)
      modifies this`state
      ensures state == Reduce(old(state), Action.UpdateUser(patch))
      ensures InSync(storage, old(state)) ==> InSync(storage, state)
    {
      Dispatch(Action.UpdateUser(patch));
    }
  }
}
